/**
 The mission state machine: which segment is being worked on and which completion is awaited for it.
 `Step` says what every call does to its state; the class keeps that state in its fields.
 */
module MissionStateMachines {
  datatype State =
    | Idle | Preparing | Turning | Tracking | Paused | RtkRecovering | Completed | Cancelled | Failed

  /** `turn` and `tracking` are the request and generation awaited, zero when none is. */
  datatype Machine = Machine(state: State, current: nat, total: nat, turn: nat, tracking: nat)

  datatype Call =
    | Start(total: nat, from: nat)
    | BeginTurn(request: nat) | CompleteTurn(request: nat)
    | BeginTracking(generation: nat) | CompleteTracking(generation: nat)
    | Pause | Resume | BeginRtkRecovery | RecoverRtk | Cancel | Fail

  const INITIAL: Machine := Machine(Idle, 0, 0, 0, 0)

  predicate Terminal(m: Machine) { m.state.Completed? || m.state.Cancelled? || m.state.Failed? }

  predicate Interruptible(m: Machine) { !m.state.Idle? && !m.state.Paused? && !Terminal(m) }

  predicate Accepts(m: Machine, call: Call) {
    match call
    case Start(total, from) => from < total && (m.state.Idle? || Terminal(m))
    case BeginTurn(request) => m.state.Preparing? && request != 0
    case CompleteTurn(request) => m.state.Turning? && request == m.turn
    case BeginTracking(generation) => m.state.Preparing? && generation != 0
    case CompleteTracking(generation) => m.state.Tracking? && generation == m.tracking
    case Pause => Interruptible(m)
    case Resume => m.state.Paused?
    case BeginRtkRecovery => Interruptible(m)
    case RecoverRtk => m.state.RtkRecovering?
    case Cancel => !m.state.Idle? && !Terminal(m)
    case Fail => !m.state.Idle? && !Terminal(m)
  }

  /** What an accepted call does; awaited completions are dropped by everything but the calls that begin one. */
  function Accepted(m: Machine, call: Call): Machine {
    match call
    case Start(total, from) => Machine(Preparing, from, total, 0, 0)
    case BeginTurn(request) => Machine(Turning, m.current, m.total, request, 0)
    case CompleteTurn(_) => Machine(Preparing, m.current, m.total, 0, 0)
    case BeginTracking(generation) => Machine(Tracking, m.current, m.total, 0, generation)
    case CompleteTracking(_) =>
      Machine(if m.current + 1 >= m.total then Completed else Preparing, m.current + 1, m.total, 0, 0)
    case Pause => Machine(Paused, m.current, m.total, 0, 0)
    case Resume => Machine(Preparing, m.current, m.total, 0, 0)
    case BeginRtkRecovery => Machine(RtkRecovering, m.current, m.total, 0, 0)
    case RecoverRtk => Machine(Preparing, m.current, m.total, 0, 0)
    case Cancel => Machine(Cancelled, m.current, m.total, 0, 0)
    case Fail => Machine(Failed, m.current, m.total, 0, 0)
  }

  function Step(m: Machine, call: Call): Machine { if Accepts(m, call) then Accepted(m, call) else m }

  /** The machine after `calls`, started from scratch. */
  function Run(calls: seq<Call>): Machine {
    if calls == [] then INITIAL else Step(Run(calls[..|calls| - 1]), calls[|calls| - 1])
  }

  /** A completion is awaited exactly while turning or tracking, and a mission is complete exactly at its last segment. */
  predicate Sound(m: Machine) {
    && (m.state.Idle? <==> m.total == 0) && m.current <= m.total
    && (m.total > 0 ==> (m.state.Completed? <==> m.current == m.total))
    && (m.turn != 0 <==> m.state.Turning?) && (m.tracking != 0 <==> m.state.Tracking?)
  }

  lemma StepKeepsSound(m: Machine, call: Call)
    requires Sound(m)
    ensures Sound(Step(m, call))
  {
  }

  /** A pause ends only by resuming, cancelling or failing, and so does a mission that is over only by a new start. */
  lemma PauseIsLeftBy(m: Machine, call: Call)
    requires Step(m, call) != m
    ensures m.state.Paused? ==> call.Resume? || call.Cancel? || call.Fail?
    ensures Terminal(m) || m.state.Idle? ==> call.Start?
    ensures Step(m, call).state.Paused? ==> call.Pause?
  {
  }

  lemma {:induction false} RunIsSound(calls: seq<Call>)
    ensures Sound(Run(calls))
  {
    if calls != [] {
      RunIsSound(calls[..|calls| - 1]);
      StepKeepsSound(Run(calls[..|calls| - 1]), calls[|calls| - 1]);
    }
  }

  /** The segment moves only when a mission starts, or by one when the awaited generation completes. */
  lemma SegmentMovesOnlyOnItsOwnCompletion(calls: seq<Call>, call: Call)
    ensures
      var m, m' := Run(calls), Run(calls + [call]);
      m'.current != m.current ==>
        || (call.Start? && Accepts(m, call))
        || (call == CompleteTracking(m.tracking) && m.state.Tracking? && m.tracking != 0 && m'.current == m.current + 1)
  {
    RunIsSound(calls);
    assert (calls + [call])[..|calls|] == calls;
  }

  /** How many segments were completed since the mission last started. */
  function CompletedSinceStart(calls: seq<Call>): nat {
    if calls == [] then 0
    else
      var before, call := calls[..|calls| - 1], calls[|calls| - 1];
      if !Accepts(Run(before), call) then CompletedSinceStart(before)
      else if call.Start? then 0
      else CompletedSinceStart(before) + if call.CompleteTracking? then 1 else 0
  }

  /** The segment the mission last started from. */
  function StartedFrom(calls: seq<Call>): nat {
    if calls == [] then 0
    else
      var before, call := calls[..|calls| - 1], calls[|calls| - 1];
      if call.Start? && Accepts(Run(before), call) then call.from else StartedFrom(before)
  }

  lemma {:induction false} SegmentsAreCounted(calls: seq<Call>)
    ensures Run(calls).current == StartedFrom(calls) + CompletedSinceStart(calls)
  {
    if calls != [] {
      SegmentsAreCounted(calls[..|calls| - 1]);
    }
  }

  /** A mission counts as complete exactly when every segment from its start on was completed. */
  lemma CompleteExactlyWhenAllSegmentsAre(calls: seq<Call>)
    requires !Run(calls).state.Idle?
    ensures Run(calls).state.Completed? <==> CompletedSinceStart(calls) == Run(calls).total - StartedFrom(calls)
  {
    RunIsSound(calls);
    SegmentsAreCounted(calls);
  }

  class MissionStateMachine {
    var state: State
    var current: nat
    var total: nat
    var turn: nat
    var tracking: nat

    ghost function View(): Machine
      reads this
    {
      Machine(state, current, total, turn, tracking)
    }

    constructor ()
      ensures View() == INITIAL
    {
      state, current, total, turn, tracking := Idle, 0, 0, 0, 0;
    }

    method IsTerminal() returns (r: bool)
      ensures r == Terminal(View())
    {
      r := state.Completed? || state.Cancelled? || state.Failed?;
    }

    method ClearExpectedEvents()
      modifies this
      ensures View() == old(View()).(turn := 0, tracking := 0)
    {
      turn, tracking := 0, 0;
    }

    method Start(totalSegments: nat, startSegment: nat) returns (ok: bool)
      modifies this
      ensures ok == Accepts(old(View()), Call.Start(totalSegments, startSegment))
      ensures View() == Step(old(View()), Call.Start(totalSegments, startSegment))
    {
      var terminal := IsTerminal();
      if totalSegments == 0 || startSegment >= totalSegments || (!state.Idle? && !terminal) { return false; }
      total := totalSegments;
      current := startSegment;
      ClearExpectedEvents();
      state := Preparing;
      ok := true;
    }

    method BeginTurn(request: nat) returns (ok: bool)
      modifies this
      ensures ok == Accepts(old(View()), Call.BeginTurn(request))
      ensures View() == Step(old(View()), Call.BeginTurn(request))
    {
      if !state.Preparing? || request == 0 { return false; }
      turn := request;
      tracking := 0;
      state := Turning;
      ok := true;
    }

    method CompleteTurn(request: nat) returns (ok: bool)
      modifies this
      ensures ok == Accepts(old(View()), Call.CompleteTurn(request))
      ensures View() == Step(old(View()), Call.CompleteTurn(request))
    {
      if !state.Turning? || request != turn { return false; }
      ClearExpectedEvents();
      state := Preparing;
      ok := true;
    }

    method BeginTracking(generation: nat) returns (ok: bool)
      modifies this
      ensures ok == Accepts(old(View()), Call.BeginTracking(generation))
      ensures View() == Step(old(View()), Call.BeginTracking(generation))
    {
      if !state.Preparing? || generation == 0 { return false; }
      turn := 0;
      tracking := generation;
      state := Tracking;
      ok := true;
    }

    method CompleteTracking(generation: nat) returns (ok: bool)
      modifies this
      ensures ok == Accepts(old(View()), Call.CompleteTracking(generation))
      ensures View() == Step(old(View()), Call.CompleteTracking(generation))
    {
      if !state.Tracking? || generation != tracking { return false; }
      ClearExpectedEvents();
      current := current + 1;
      state := if current >= total then Completed else Preparing;
      ok := true;
    }

    method PauseMission() returns (ok: bool)
      modifies this
      ensures ok == Accepts(old(View()), Pause) && View() == Step(old(View()), Pause)
    {
      var terminal := IsTerminal();
      if state.Idle? || state.Paused? || terminal { return false; }
      ClearExpectedEvents();
      state := Paused;
      ok := true;
    }

    method ResumeMission() returns (ok: bool)
      modifies this
      ensures ok == Accepts(old(View()), Resume) && View() == Step(old(View()), Resume)
    {
      if !state.Paused? { return false; }
      ClearExpectedEvents();
      state := Preparing;
      ok := true;
    }

    method BeginRecovery() returns (ok: bool)
      modifies this
      ensures ok == Accepts(old(View()), BeginRtkRecovery) && View() == Step(old(View()), BeginRtkRecovery)
    {
      var terminal := IsTerminal();
      if state.Idle? || state.Paused? || terminal { return false; }
      ClearExpectedEvents();
      state := RtkRecovering;
      ok := true;
    }

    method RecoverFix() returns (ok: bool)
      modifies this
      ensures ok == Accepts(old(View()), RecoverRtk) && View() == Step(old(View()), RecoverRtk)
    {
      if !state.RtkRecovering? { return false; }
      ClearExpectedEvents();
      state := Preparing;
      ok := true;
    }

    method CancelMission() returns (ok: bool)
      modifies this
      ensures ok == Accepts(old(View()), Cancel) && View() == Step(old(View()), Cancel)
    {
      var terminal := IsTerminal();
      if state.Idle? || terminal { return false; }
      ClearExpectedEvents();
      state := Cancelled;
      ok := true;
    }

    method FailMission() returns (ok: bool)
      modifies this
      ensures ok == Accepts(old(View()), Fail) && View() == Step(old(View()), Fail)
    {
      var terminal := IsTerminal();
      if state.Idle? || terminal { return false; }
      ClearExpectedEvents();
      state := Failed;
      ok := true;
    }
  }
}
