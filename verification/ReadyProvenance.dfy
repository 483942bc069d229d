/**
 Where "ready" comes from: if the gate reports ready after some history of calls, that history
 contains the whole chain of evidence.
 */
module ReadyProvenance {
  import opened Wrappers
  import opened MaintenanceGates

  predicate Opens(e: Event, g: nat) {
    (e.Request? && e.generation == g) || (e.Restore? && e.activeGeneration == Some(g))
  }

  predicate FinalFor(e: Event, g: nat) {
    e.Final? && e.command.generation == g && e.command.requestId == g && e.command.source == GATE_SOURCE
  }

  predicate BrakeFor(e: Event, g: nat, id: nat) {
    && FinalFor(e, g) && e.command.commandId == id && id != 0 && e.command.active && e.command.brake
    && e.command.xSpeed == 0 && e.command.zSpeed == 0 && e.command.brushSpeed == 0
  }

  predicate StatusFor(e: Event, g: nat, id: nat) {
    && e.Status? && e.status.generation == g && e.status.requestId == g && e.status.source == GATE_SOURCE
    && id != 0 && e.status.commandId == id
  }

  predicate AckFor(e: Event, g: nat, id: nat) {
    StatusFor(e, g, id) && (e.status.state == STATE_SENT || e.status.state == STATE_ACKNOWLEDGED)
  }

  predicate FailureFor(e: Event, g: nat, id: nat) {
    && StatusFor(e, g, id)
    && (|| e.status.state == STATE_REJECTED || e.status.state == STATE_TIMED_OUT
        || e.status.state == STATE_TRANSPORT_LOST || e.status.state == STATE_SUPERSEDED)
  }

  /** A fresh sample of a connected vehicle that stands, brush included. */
  predicate Still(h: Hardware) {
    h.isFresh && h.connected && h.xSpeed == 0 && h.zSpeed == 0 && h.brushSpeed == 0
  }

  predicate FrameOf(e: Event, epoch: nat) {
    e.Frame? && e.hardware.epoch == epoch
  }

  // ---------------------------------------------------------------------------------------------
  // The evidence, as positions in the history
  // ---------------------------------------------------------------------------------------------

  /** `r` opened generation `g`, a generation no earlier request used, and nothing has closed it since. */
  ghost predicate OpenSince(h: seq<Event>, g: nat, r: nat) {
    && r < |h| && Opens(h[r], g)
    && (forall i :: 0 <= i < r && h[i].Request? ==> h[i].generation < g)
    && (forall i :: r < i < |h| ==> h[i] != Release(g))
    && (forall i :: r < i < |h| && h[i].Request? ==> h[i].generation <= g)
  }

  /** `m` holds the latest report about the mission: `idle`. */
  ghost predicate IdleSince(h: seq<Event>, r: nat, m: nat, idle: bool) {
    && r <= m < |h|
    && (m == r || h[m].Idle?) && (h[m].Restore? || h[m].Request? || h[m].Idle?) && h[m].idle == idle
    && forall i :: m < i < |h| ==> !h[i].Idle?
  }

  /** `c` is the safe brake `id`, and every final command for `g` since is the same safe brake. */
  ghost predicate BrakeSince(h: seq<Event>, g: nat, r: nat, c: nat, id: nat) {
    && r < c < |h| && BrakeFor(h[c], g, id)
    && forall i :: c < i < |h| && FinalFor(h[i], g) ==> BrakeFor(h[i], g, id)
  }

  ghost predicate AckAt(h: seq<Event>, g: nat, r: nat, a: nat, id: nat) {
    r < a < |h| && AckFor(h[a], g, id)
  }

  ghost predicate NoFailureSince(h: seq<Event>, g: nat, r: nat, id: nat) {
    forall i :: r < i < |h| ==> !FailureFor(h[i], g, id)
  }

  /** `z` is a safe zero frame of `epoch`, newer than every frame of that epoch since `r`. */
  ghost predicate ZeroFrameAt(h: seq<Event>, r: nat, z: nat, epoch: nat) {
    && r < z < |h| && FrameOf(h[z], epoch) && Still(h[z].hardware)
    && forall i :: r < i < z && FrameOf(h[i], epoch) ==> h[i].hardware.sequence < h[z].hardware.sequence
  }

  /** Since `z` no invalid sample, no newer session, and no unsafe or stale sample of this session. */
  ghost predicate CleanSince(h: seq<Event>, z: nat, epoch: nat) {
    forall i :: z < i < |h| && h[i].Frame? ==>
      && 0 < h[i].hardware.epoch <= epoch
      && (h[i].hardware.epoch == epoch ==> Still(h[i].hardware))
  }

  datatype Witness = Witness(r: nat, m: nat, c: nat, a: nat, z1: nat, z2: nat, q: nat)

  /** One safe brake was commanded, acknowledged and never failed. */
  ghost predicate BrakeEvidence(h: seq<Event>, g: nat, w: Witness) {
    && w.c < |h| && h[w.c].Final?
    && BrakeSince(h, g, w.r, w.c, h[w.c].command.commandId)
    && AckAt(h, g, w.r, w.a, h[w.c].command.commandId)
    && NoFailureSince(h, g, w.r, h[w.c].command.commandId)
  }

  /** After both, two ever newer zero frames of one session, and nothing that contradicts them. */
  ghost predicate FrameEvidence(h: seq<Event>, w: Witness) {
    && w.c < w.z1 && w.a < w.z1 < w.z2
    && w.z1 < |h| && h[w.z1].Frame? && h[w.z1].hardware.epoch != 0
    && ZeroFrameAt(h, w.r, w.z1, h[w.z1].hardware.epoch)
    && ZeroFrameAt(h, w.r, w.z2, h[w.z1].hardware.epoch)
    && CleanSince(h, w.z1, h[w.z1].hardware.epoch)
  }

  /** Everything "ready for `g`" stands on. */
  ghost predicate Evidence(h: seq<Event>, g: nat, w: Witness) {
    && OpenSince(h, g, w.r)
    && IdleSince(h, w.r, w.m, true)
    && BrakeEvidence(h, g, w)
    && FrameEvidence(h, w)
  }

  // ---------------------------------------------------------------------------------------------
  // The invariant that ties the gate's fields to the history
  // ---------------------------------------------------------------------------------------------

  ghost predicate GenerationsInv(h: seq<Event>, s: State) {
    && (forall i :: 0 <= i < |h| && h[i].Request? ==> h[i].generation <= s.lastGeneration)
    && (s.pristine ==> !s.active && s.lastGeneration == 0)
  }

  ghost predicate OpenInv(h: seq<Event>, s: State, w: Witness) {
    s.active ==>
      && s.generation == s.lastGeneration != 0
      && OpenSince(h, s.generation, w.r)
      && IdleSince(h, w.r, w.m, s.missionIdle)
  }

  ghost predicate PendingInv(h: seq<Event>, s: State, r: nat) {
    && (forall id :: id in s.pending ==>
          && !(s.commandApplied && id == s.commandId)
          && (s.pending[id].acknowledged ==>
                && s.pending[id].failure == NoFailure
                && exists a :: AckAt(h, s.generation, r, a, id)))
    && (forall i :: r < i < |h| && h[i].Status? && FailureFor(h[i], s.generation, h[i].status.commandId) ==>
          h[i].status.commandId in s.pending && s.pending[h[i].status.commandId].failure != NoFailure)
  }

  ghost predicate CommandInv(h: seq<Event>, s: State, w: Witness) {
    && (s.acknowledged ==> s.commandApplied && AckAt(h, s.generation, w.r, w.a, s.commandId))
    && (s.commandApplied ==> s.commandId != 0 && BrakeSince(h, s.generation, w.r, w.c, s.commandId))
  }

  ghost predicate SequenceInv(h: seq<Event>, s: State, w: Witness) {
    && s.publisherEpoch.Some? == s.lastSequence.Some?
    && (s.publisherEpoch.Some? ==>
          && s.publisherEpoch.value != 0
          && w.r < w.q < |h| && FrameOf(h[w.q], s.publisherEpoch.value)
          && h[w.q].hardware.sequence == s.lastSequence.value)
    && forall i :: w.r < i < |h| && h[i].Frame? && h[i].hardware.epoch != 0 ==>
         && s.publisherEpoch.Some?
         && h[i].hardware.epoch <= s.publisherEpoch.value
         && (h[i].hardware.epoch == s.publisherEpoch.value ==> h[i].hardware.sequence <= s.lastSequence.value)
  }

  ghost predicate FramesInv(h: seq<Event>, s: State, w: Witness) {
    && (s.confirmation.zeroFrames >= 1 ==>
          && s.acknowledged && s.publisherEpoch.Some?
          && w.c < w.z2 && w.a < w.z2
          && ZeroFrameAt(h, w.r, w.z2, s.publisherEpoch.value)
          && CleanSince(h, w.z2, s.publisherEpoch.value))
    && (s.confirmation.zeroFrames >= 2 ==>
          && w.c < w.z1 && w.a < w.z1 < w.z2
          && ZeroFrameAt(h, w.r, w.z1, s.publisherEpoch.value)
          && CleanSince(h, w.z1, s.publisherEpoch.value))
  }

  ghost predicate EvidenceInv(h: seq<Event>, s: State, w: Witness) {
    s.active && s.failure == NoFailure ==>
      && PendingInv(h, s, w.r) && CommandInv(h, s, w) && SequenceInv(h, s, w) && FramesInv(h, s, w)
  }

  ghost predicate Inv(h: seq<Event>, s: State, w: Witness) {
    GenerationsInv(h, s) && OpenInv(h, s, w) && EvidenceInv(h, s, w)
  }

  // ---------------------------------------------------------------------------------------------
  // Each kind of event keeps it
  // ---------------------------------------------------------------------------------------------

  /** Statuses, commands and frames never touch the opening. */
  lemma OpenKept(h: seq<Event>, e: Event, s: State, s': State, w: Witness, w': Witness)
    requires GenerationsInv(h, s) && OpenInv(h, s, w)
    requires e.Status? || e.Final? || e.Frame?
    requires s'.pristine == s.pristine && s'.active == s.active && s'.missionIdle == s.missionIdle
    requires s'.generation == s.generation && s'.lastGeneration == s.lastGeneration
    requires w'.r == w.r && w'.m == w.m
    ensures GenerationsInv(h + [e], s') && OpenInv(h + [e], s', w')
  {
  }

  lemma PendingKept(h: seq<Event>, e: Event, s: State, s': State, r: nat)
    requires PendingInv(h, s, r) && r < |h| && s'.generation == s.generation
    requires forall id :: id in s'.pending ==>
               && !(s'.commandApplied && id == s'.commandId)
               && (s'.pending[id].acknowledged ==>
                     && s'.pending[id].failure == NoFailure
                     && ((id in s.pending && s.pending[id].acknowledged) || AckFor(e, s.generation, id)))
    requires forall id :: id in s.pending && s.pending[id].failure != NoFailure ==>
               id in s'.pending && s'.pending[id].failure != NoFailure
    requires e.Status? && FailureFor(e, s.generation, e.status.commandId) ==>
               e.status.commandId in s'.pending && s'.pending[e.status.commandId].failure != NoFailure
    ensures PendingInv(h + [e], s', r)
  {
    var h' := h + [e];
    forall id | id in s'.pending && s'.pending[id].acknowledged
      ensures exists a :: AckAt(h', s'.generation, r, a, id)
    {
      if AckFor(e, s.generation, id) {
        assert AckAt(h', s'.generation, r, |h|, id);
      } else {
        var a :| AckAt(h, s.generation, r, a, id);
        assert AckAt(h', s'.generation, r, a, id);
      }
    }
  }

  lemma CommandKept(h: seq<Event>, e: Event, s: State, s': State, w: Witness, w': Witness)
    requires CommandInv(h, s, w) && w.r == w'.r < |h| && s'.generation == s.generation
    requires s'.acknowledged ==> s'.commandApplied
    requires s'.acknowledged ==>
               || (w'.a == |h| && AckFor(e, s.generation, s'.commandId))
               || AckAt(h, s.generation, w.r, w'.a, s'.commandId)
    requires s'.commandApplied ==> s'.commandId != 0
    requires s'.commandApplied ==>
               || (w'.c == |h| && BrakeFor(e, s.generation, s'.commandId))
               || (&& w'.c == w.c && s.commandApplied && s'.commandId == s.commandId
                   && (FinalFor(e, s.generation) ==> BrakeFor(e, s.generation, s.commandId)))
    ensures CommandInv(h + [e], s', w')
  {
  }

  lemma SequenceKept(h: seq<Event>, e: Event, s: State, s': State, w: Witness, w': Witness)
    requires SequenceInv(h, s, w) && w'.r == w.r < |h|
    requires s'.publisherEpoch.Some? == s'.lastSequence.Some?
    requires s.publisherEpoch.Some? ==> s'.publisherEpoch.Some? && s.publisherEpoch.value <= s'.publisherEpoch.value
    requires s'.publisherEpoch.Some? ==> s'.publisherEpoch.value != 0
    requires s'.publisherEpoch.Some? ==>
               || (&& w'.q == |h| && FrameOf(e, s'.publisherEpoch.value)
                   && e.hardware.sequence == s'.lastSequence.value)
               || (w'.q == w.q && s'.publisherEpoch == s.publisherEpoch && s'.lastSequence == s.lastSequence)
    requires s.publisherEpoch.Some? && s'.publisherEpoch == s.publisherEpoch ==>
               s.lastSequence.value <= s'.lastSequence.value
    requires e.Frame? && e.hardware.epoch != 0 ==>
               && s'.publisherEpoch.Some? && e.hardware.epoch <= s'.publisherEpoch.value
               && (e.hardware.epoch == s'.publisherEpoch.value ==> e.hardware.sequence <= s'.lastSequence.value)
    ensures SequenceInv(h + [e], s', w')
  {
  }

  /** Frames already confirmed stay confirmed while nothing contradicts them. */
  lemma FramesKept(h: seq<Event>, e: Event, s: State, s': State, w: Witness, w': Witness)
    requires FramesInv(h, s, w)
    requires s'.confirmation.zeroFrames >= 1 ==>
      && s'.confirmation.zeroFrames == s.confirmation.zeroFrames
      && w' == w.(q := w'.q) && s'.acknowledged && s'.publisherEpoch == s.publisherEpoch
      && (e.Frame? ==> && 0 < e.hardware.epoch <= s.publisherEpoch.value
                       && (e.hardware.epoch == s.publisherEpoch.value ==> Still(e.hardware)))
    ensures FramesInv(h + [e], s', w')
  {
  }

  /** A new zero frame becomes the second one; the second becomes the first. */
  lemma FrameCounted(h: seq<Event>, e: Event, s: State, s': State, w: Witness, w': Witness)
    requires FramesInv(h, s, w) && SequenceInv(h, s, w) && CommandInv(h, s, w) && w.r < |h|
    requires e.Frame? && Still(e.hardware) && s.acknowledged && s'.acknowledged
    requires s'.publisherEpoch == Some(e.hardware.epoch) && e.hardware.epoch != 0
    requires s.publisherEpoch.Some? ==> s.publisherEpoch.value <= e.hardware.epoch
    requires s.publisherEpoch == Some(e.hardware.epoch) ==> s.lastSequence.value < e.hardware.sequence
    requires s'.confirmation.zeroFrames >= 2 ==>
               s.confirmation.zeroFrames >= 1 && s.publisherEpoch == s'.publisherEpoch
    requires w' == w.(z1 := w.z2, z2 := |h|, q := w'.q)
    ensures FramesInv(h + [e], s', w')
  {
  }

  /** An event that is no evidence leaves every fact about the history in place. */
  lemma QuietEvent(h: seq<Event>, e: Event, s: State, s': State, w: Witness)
    requires Inv(h, s, w)
    requires s' == s.(pristine := s'.pristine, missionIdle := s'.missionIdle) && (s'.pristine ==> s.pristine)
    requires e.Request? ==> e.generation <= s.lastGeneration
    requires s.active ==> e != Release(s.generation)
    requires e.Idle? ==> s'.missionIdle == e.idle
    requires !e.Idle? ==> s'.missionIdle == s.missionIdle
    requires s.active && s.failure == NoFailure ==>
      && !FinalFor(e, s.generation)
      && (e.Status? ==> !FailureFor(e, s.generation, e.status.commandId))
      && (e.Frame? ==> && e.hardware.epoch != 0 && s.publisherEpoch.Some?
                       && e.hardware.epoch < s.publisherEpoch.value)
    ensures Inv(h + [e], s', w.(m := if e.Idle? then |h| else w.m))
  {
    if s.active && s.failure == NoFailure {
      var w' := w.(m := if e.Idle? then |h| else w.m);
      PendingKept(h, e, s, s', w.r);
      CommandKept(h, e, s, s', w, w');
      SequenceKept(h, e, s, s', w, w');
      FramesKept(h, e, s, s', w.(m := w'.m), w');
    }
  }

  lemma OpeningEvent(h: seq<Event>, e: Event, s: State, w: Witness) returns (w': Witness)
    requires Inv(h, s, w)
    requires e.Restore? || e.Request?
    ensures Inv(h + [e], Step(s, e), w')
  {
    var accepted := if e.Restore? then Restored(s, e.lastGeneration, e.activeGeneration, e.idle)
                    else Requested(s, e.generation, e.idle);
    if accepted.Some? {
      w' := w.(r := |h|, m := |h|);
    } else {
      QuietEvent(h, e, s, s, w);
      w' := w;
    }
  }

  lemma ClosingEvent(h: seq<Event>, e: Event, s: State, w: Witness)
    requires Inv(h, s, w)
    requires e.Release?
    ensures Inv(h + [e], Step(s, e), w)
  {
    if Released(s, e.generation).None? {
      QuietEvent(h, e, s, s, w);
    }
  }

  /** An acknowledgement or a failure of the brake now in force. */
  lemma CurrentStatusEvidence(h: seq<Event>, e: Event, s: State, w: Witness) returns (w': Witness)
    requires GenerationsInv(h, s) && OpenInv(h, s, w) && s.active && s.failure == NoFailure
    requires PendingInv(h, s, w.r) && CommandInv(h, s, w) && SequenceInv(h, s, w) && FramesInv(h, s, w)
    requires s.commandApplied && e.Status? && StatusFor(e, s.generation, s.commandId)
    requires AckFor(e, s.generation, s.commandId) || FailureFor(e, s.generation, s.commandId)
    ensures Inv(h + [e], CommandStatusObserved(s, e.status), w')
  {
    var s' := CommandStatusObserved(s, e.status);
    w' := if s.acknowledged then w else w.(a := |h|);
    OpenKept(h, e, s, s', w, w');
    if s'.failure == NoFailure {
      PendingKept(h, e, s, s', w.r);
      CommandKept(h, e, s, s', w, w');
      SequenceKept(h, e, s, s', w, w');
      FramesKept(h, e, s, s', w, w');
    }
  }

  /** A latched failure drops every claim but the opening. */
  lemma FailureLatched(h: seq<Event>, e: Event, s: State, failure: BrakeFailure, w: Witness)
    requires GenerationsInv(h, s) && OpenInv(h, s, w)
    requires e.Status? || e.Final?
    requires failure != NoFailure
    ensures Inv(h + [e], LatchFailure(s, failure), w)
  {
    OpenKept(h, e, s, LatchFailure(s, failure), w, w);
  }

  /** `s'` remembers the status `e` and is otherwise `s`. */
  ghost predicate Remembered(e: Event, s: State, s': State)
    requires e.Status?
  {
    var id := e.status.commandId;
    && s' == s.(pending := s'.pending) && s'.pending.Keys == s.pending.Keys + {id}
    && (forall p :: p in s.pending && p != id ==> s'.pending[p] == s.pending[p])
    && (s'.pending[id].acknowledged ==>
          && s'.pending[id].failure == NoFailure
          && (AckFor(e, s.generation, id) || (id in s.pending && s.pending[id].acknowledged)))
    && (FailureFor(e, s.generation, id) ==> s'.pending[id].failure != NoFailure)
    && (id in s.pending && s.pending[id].failure != NoFailure ==> s'.pending[id].failure != NoFailure)
  }

  lemma EarlyStatusEffect(e: Event, s: State)
    requires s.active && s.failure == NoFailure
    requires e.Status? && StatusFor(e, s.generation, e.status.commandId)
    requires !(s.commandApplied && e.status.commandId == s.commandId)
    requires AckFor(e, s.generation, e.status.commandId) || FailureFor(e, s.generation, e.status.commandId)
    requires forall p :: p in s.pending && s.pending[p].acknowledged ==> s.pending[p].failure == NoFailure
    ensures var s' := CommandStatusObserved(s, e.status);
            Remembered(e, s, s') || s' == LatchFailure(s, CorrelationOverflow)
  {
  }

  /** A status that arrives before its command is remembered. */
  lemma EarlyStatusEvidence(h: seq<Event>, e: Event, s: State, s': State, w: Witness)
    requires GenerationsInv(h, s) && OpenInv(h, s, w) && s.active && s.failure == NoFailure
    requires PendingInv(h, s, w.r) && CommandInv(h, s, w) && SequenceInv(h, s, w) && FramesInv(h, s, w)
    requires e.Status? && StatusFor(e, s.generation, e.status.commandId)
    requires !(s.commandApplied && e.status.commandId == s.commandId)
    requires Remembered(e, s, s')
    ensures Inv(h + [e], s', w)
  {
    OpenKept(h, e, s, s', w, w);
    PendingKept(h, e, s, s', w.r);
    CommandKept(h, e, s, s', w, w);
    SequenceKept(h, e, s, s', w, w);
    FramesKept(h, e, s, s', w, w);
  }

  /** An acknowledgement or a failure of some command of the open generation. */
  lemma StatusEvidence(h: seq<Event>, e: Event, s: State, w: Witness) returns (w': Witness)
    requires Inv(h, s, w) && s.active && s.failure == NoFailure
    requires e.Status? && StatusFor(e, s.generation, e.status.commandId)
    requires AckFor(e, s.generation, e.status.commandId) || FailureFor(e, s.generation, e.status.commandId)
    ensures Inv(h + [e], CommandStatusObserved(s, e.status), w')
  {
    w' := w;
    var s' := CommandStatusObserved(s, e.status);
    if s.commandApplied && e.status.commandId == s.commandId {
      w' := CurrentStatusEvidence(h, e, s, w);
    } else {
      EarlyStatusEffect(e, s);
      if Remembered(e, s, s') {
        EarlyStatusEvidence(h, e, s, s', w);
      } else {
        FailureLatched(h, e, s, CorrelationOverflow, w);
      }
    }
  }

  lemma StatusEvent(h: seq<Event>, e: Event, s: State, w: Witness) returns (w': Witness)
    requires Inv(h, s, w)
    requires e.Status?
    ensures Inv(h + [e], CommandStatusObserved(s, e.status), w')
  {
    var g, id := s.generation, e.status.commandId;
    if s.active && s.failure == NoFailure && StatusFor(e, g, id) && (AckFor(e, g, id) || FailureFor(e, g, id)) {
      w' := StatusEvidence(h, e, s, w);
    } else {
      QuietEvent(h, e, s, s, w);
      w' := w;
    }
  }

  ghost predicate Gathering(h: seq<Event>, s: State, w: Witness) {
    && GenerationsInv(h, s) && OpenInv(h, s, w) && s.active && s.failure == NoFailure
    && PendingInv(h, s, w.r) && CommandInv(h, s, w) && SequenceInv(h, s, w) && FramesInv(h, s, w)
  }

  /** A final command that is no safe brake withdraws the brake. */
  lemma BrakeWithdrawn(h: seq<Event>, e: Event, s: State, w: Witness)
    requires Gathering(h, s, w) && FinalFor(e, s.generation) && !SafeBrake(e.command)
    ensures Inv(h + [e], FinalCommandObserved(s, e.command), w)
  {
    var s' := FinalCommandObserved(s, e.command);
    OpenKept(h, e, s, s', w, w);
    PendingKept(h, e, s, s', w.r);
    CommandKept(h, e, s, s', w, w);
    SequenceKept(h, e, s, s', w, w);
    FramesKept(h, e, s, s', w, w);
  }

  /** The brake in force, commanded again. */
  lemma BrakeRepeated(h: seq<Event>, e: Event, s: State, w: Witness)
    requires Gathering(h, s, w) && FinalFor(e, s.generation) && SafeBrake(e.command)
    requires s.commandApplied && e.command.commandId == s.commandId
    ensures Inv(h + [e], FinalCommandObserved(s, e.command), w)
  {
    var s' := FinalCommandObserved(s, e.command);
    assert s' == s;
    OpenKept(h, e, s, s', w, w);
    PendingKept(h, e, s, s', w.r);
    CommandKept(h, e, s, s', w, w);
    SequenceKept(h, e, s, s', w, w);
    FramesKept(h, e, s, s', w, w);
  }

  /** A new brake, whose status may have come before it. */
  lemma BrakeApplied(h: seq<Event>, e: Event, s: State, w: Witness, w': Witness)
    requires Gathering(h, s, w) && FinalFor(e, s.generation) && SafeBrake(e.command)
    requires !(s.commandApplied && e.command.commandId == s.commandId)
    requires FinalCommandObserved(s, e.command).failure == NoFailure
    requires w' == w.(c := |h|, a := w'.a)
    requires e.command.commandId in s.pending && s.pending[e.command.commandId].acknowledged ==>
               AckAt(h, s.generation, w.r, w'.a, e.command.commandId)
    ensures Inv(h + [e], FinalCommandObserved(s, e.command), w')
  {
    var s' := FinalCommandObserved(s, e.command);
    OpenKept(h, e, s, s', w, w');
    PendingKept(h, e, s, s', w.r);
    CommandKept(h, e, s, s', w, w');
    SequenceKept(h, e, s, s', w, w');
    FramesKept(h, e, s, s', w, w');
  }

  /** A final command of the open generation: a safe brake, or one that withdraws it. */
  lemma FinalEvidence(h: seq<Event>, e: Event, s: State, w: Witness) returns (w': Witness)
    requires Gathering(h, s, w) && FinalFor(e, s.generation)
    ensures Inv(h + [e], FinalCommandObserved(s, e.command), w')
  {
    var id := e.command.commandId;
    w' := w;
    if !SafeBrake(e.command) {
      BrakeWithdrawn(h, e, s, w);
    } else if s.commandApplied && id == s.commandId {
      BrakeRepeated(h, e, s, w);
    } else {
      w' := w.(c := |h|);
      if id in s.pending && s.pending[id].acknowledged {
        var a :| AckAt(h, s.generation, w.r, a, id);
        w' := w'.(a := a);
      }
      if FinalCommandObserved(s, e.command).failure == NoFailure {
        BrakeApplied(h, e, s, w, w');
      } else {
        OpenKept(h, e, s, FinalCommandObserved(s, e.command), w, w');
      }
    }
  }

  lemma FinalEvent(h: seq<Event>, e: Event, s: State, w: Witness) returns (w': Witness)
    requires Inv(h, s, w)
    requires e.Final?
    ensures Inv(h + [e], FinalCommandObserved(s, e.command), w')
  {
    if s.active && s.failure == NoFailure && FinalFor(e, s.generation) {
      w' := FinalEvidence(h, e, s, w);
    } else {
      QuietEvent(h, e, s, s, w);
      w' := w;
    }
  }

  /** What a frame of the current or a newer session may do to the gate. */
  ghost predicate Sampled(e: Event, s: State, s': State)
    requires e.Frame?
  {
    && s' == s.(confirmation := s'.confirmation, publisherEpoch := s'.publisherEpoch, lastSequence := s'.lastSequence)
    && (e.hardware.epoch == 0 ==>
          s'.confirmation.zeroFrames == 0 && s'.publisherEpoch == s.publisherEpoch && s'.lastSequence == s.lastSequence)
    && (e.hardware.epoch != 0 ==>
          && s'.publisherEpoch == Some(e.hardware.epoch)
          && (if s.publisherEpoch == s'.publisherEpoch && !NewerThan(e.hardware.sequence, s.lastSequence)
              then s'.lastSequence == s.lastSequence
              else s'.lastSequence == Some(e.hardware.sequence)))
  }

  /** `e` is a zero frame newer than all frames of its session. */
  ghost predicate Counts(e: Event, s: State)
    requires e.Frame?
  {
    && e.hardware.epoch != 0 && s.acknowledged && Still(e.hardware)
    && (s.publisherEpoch != Some(e.hardware.epoch) || NewerThan(e.hardware.sequence, s.lastSequence))
  }

  lemma SampleEffect(e: Event, s: State)
    requires s.active && s.failure == NoFailure && e.Frame?
    requires e.hardware.epoch == 0 || s.publisherEpoch.None? || s.publisherEpoch.value <= e.hardware.epoch
    requires s.publisherEpoch.Some? ==> s.lastSequence.Some?
    requires s.confirmation.zeroFrames >= 1 ==> s.acknowledged
    ensures var s' := HardwareObserved(s, e.hardware);
            && Sampled(e, s, s')
            && (Counts(e, s) ==>
                  s'.confirmation.zeroFrames >= 2 ==>
                    s.confirmation.zeroFrames >= 1 && s.publisherEpoch == s'.publisherEpoch)
            && (!Counts(e, s) && s'.confirmation.zeroFrames >= 1 ==>
                  && s'.confirmation.zeroFrames == s.confirmation.zeroFrames
                  && e.hardware.epoch != 0 && Still(e.hardware) && s'.publisherEpoch == s.publisherEpoch)
  {
  }

  /** A frame that is not of a session older than the current one. */
  lemma FrameSample(h: seq<Event>, e: Event, s: State, s': State, w: Witness) returns (w': Witness)
    requires GenerationsInv(h, s) && OpenInv(h, s, w) && s.active && s.failure == NoFailure
    requires PendingInv(h, s, w.r) && CommandInv(h, s, w) && SequenceInv(h, s, w) && FramesInv(h, s, w)
    requires e.Frame? && Sampled(e, s, s')
    requires e.hardware.epoch == 0 || s.publisherEpoch.None? || s.publisherEpoch.value <= e.hardware.epoch
    requires Counts(e, s) ==>
               s'.confirmation.zeroFrames >= 2 ==>
                 s.confirmation.zeroFrames >= 1 && s.publisherEpoch == s'.publisherEpoch
    requires !Counts(e, s) && s'.confirmation.zeroFrames >= 1 ==>
               && s'.confirmation.zeroFrames == s.confirmation.zeroFrames
               && e.hardware.epoch != 0 && Still(e.hardware) && s'.publisherEpoch == s.publisherEpoch
    ensures Inv(h + [e], s', w')
  {
    var q := if s'.lastSequence == s.lastSequence && s'.publisherEpoch == s.publisherEpoch then w.q else |h|;
    if Counts(e, s) {
      w' := w.(z1 := w.z2, z2 := |h|, q := q);
      FrameCounted(h, e, s, s', w, w');
    } else {
      w' := w.(q := q);
      FramesKept(h, e, s, s', w, w');
    }
    OpenKept(h, e, s, s', w, w');
    PendingKept(h, e, s, s', w.r);
    CommandKept(h, e, s, s', w, w');
    SequenceKept(h, e, s, s', w, w');
  }

  lemma FrameEvent(h: seq<Event>, e: Event, s: State, w: Witness) returns (w': Witness)
    requires Inv(h, s, w)
    requires e.Frame?
    ensures Inv(h + [e], HardwareObserved(s, e.hardware), w')
  {
    var epoch := e.hardware.epoch;
    if s.active && s.failure == NoFailure
       && (epoch == 0 || s.publisherEpoch.None? || s.publisherEpoch.value <= epoch)
    {
      SampleEffect(e, s);
      w' := FrameSample(h, e, s, HardwareObserved(s, e.hardware), w);
    } else {
      QuietEvent(h, e, s, s, w);
      w' := w;
    }
  }

  // ---------------------------------------------------------------------------------------------
  // The theorem
  // ---------------------------------------------------------------------------------------------

  lemma {:induction false} InvHolds(h: seq<Event>) returns (w: Witness)
    ensures Inv(h, After(h), w)
  {
    if h == [] {
      w := Witness(0, 0, 0, 0, 0, 0, 0);
      return;
    }
    var last := |h| - 1;
    var before, e := h[..last], h[last];
    assert h == before + [e];
    var w0 := InvHolds(before);
    var s := After(before);
    match e {
      case Restore(_, _, _) => w := OpeningEvent(before, e, s, w0);
      case Request(_, _) => w := OpeningEvent(before, e, s, w0);
      case Release(_) => ClosingEvent(before, e, s, w0); w := w0;
      case Idle(_) => QuietEvent(before, e, s, Step(s, e), w0); w := w0.(m := last);
      case Final(_) => w := FinalEvent(before, e, s, w0);
      case Status(_) => w := StatusEvent(before, e, s, w0);
      case Frame(_) => w := FrameEvent(before, e, s, w0);
    }
  }

  /** Over every history of calls, "ready" implies the whole chain of evidence for its generation. */
  lemma ReadyNeedsEvidence(h: seq<Event>)
    requires Ready(After(h))
    ensures exists w :: Evidence(h, After(h).generation, w)
  {
    var w := InvHolds(h);
    assert Evidence(h, After(h).generation, w);
  }

  /** `x` is newer than every frame the gate was fed since `r`. */
  ghost predicate NewestSince(h: seq<Event>, r: nat, x: Hardware) {
    forall i :: r < i < |h| && h[i].Frame? ==>
      && h[i].hardware.epoch <= x.epoch
      && (h[i].hardware.epoch == x.epoch ==> h[i].hardware.sequence < x.sequence)
  }

  lemma ZeroSampleEffect(s: State, x: Hardware)
    requires s.active && s.failure == NoFailure && s.acknowledged && x.epoch != 0 && Still(x)
    ensures var s' := HardwareObserved(s, x);
            && (s' != s ==> s'.confirmation.zeroFrames >= 1)
            && (s' != s <==> || s.publisherEpoch.None? || s.publisherEpoch.value < x.epoch
                             || (s.publisherEpoch.value == x.epoch && NewerThan(x.sequence, s.lastSequence)))
  {
  }

  /**
   A safe zero sample counts once the brake is acknowledged exactly when it is newer than every frame the
   gate was fed since it opened.  Feeding a sample again changes nothing; but a sample that was received
   before the request does count if the gate has not been fed a frame of its session yet.
   */
  lemma SampleCountsExactlyWhenNew(h: seq<Event>, x: Hardware)
    requires var s := After(h); s.active && s.failure == NoFailure && s.acknowledged
    requires x.epoch != 0 && Still(x)
    ensures var s, s' := After(h), HardwareObserved(After(h), x);
            && (s' != s ==> s'.confirmation.zeroFrames >= 1)
            && exists r: nat :: OpenSince(h, s.generation, r) && (s' != s <==> NewestSince(h, r, x))
  {
    var s := After(h);
    var w := InvHolds(h);
    ZeroSampleEffect(s, x);
    SequenceSummary(h, s, w, x);
    assert OpenSince(h, s.generation, w.r);
  }

  lemma SequenceSummary(h: seq<Event>, s: State, w: Witness, x: Hardware)
    requires SequenceInv(h, s, w) && x.epoch != 0
    ensures NewestSince(h, w.r, x) <==>
              || s.publisherEpoch.None? || s.publisherEpoch.value < x.epoch
              || (s.publisherEpoch.value == x.epoch && s.lastSequence.value < x.sequence)
  {
  }

  /** After a request, its brake and the acknowledgement in either order confirm the brake. */
  lemma BrakeCanBeConfirmed(s: State, g: nat, brake: FinalCommand, ack: CommandStatus, early: bool)
    requires s.lastGeneration < g
    requires BrakeFor(Final(brake), g, brake.commandId) && AckFor(Status(ack), g, brake.commandId)
    ensures
      var s0 := Requested(s, g, true).value;
      var s2 := if early then FinalCommandObserved(CommandStatusObserved(s0, ack), brake)
                else CommandStatusObserved(FinalCommandObserved(s0, brake), ack);
      s2 == s0.(commandApplied := true, commandId := brake.commandId, acknowledged := true, pending := s2.pending)
  {
  }

  /** With the brake confirmed, two new zero frames make the gate ready. */
  lemma FramesConfirm(s: State, x: Hardware, y: Hardware)
    requires s.active && s.failure == NoFailure && s.missionIdle && s.commandApplied && s.acknowledged
    requires s.publisherEpoch.None? && s.confirmation == UNCONFIRMED
    requires x.epoch == y.epoch != 0 && x.sequence < y.sequence && Still(x) && Still(y)
    ensures Ready(HardwareObserved(HardwareObserved(s, x), y))
  {
    var s1 := HardwareObserved(s, x);
    assert s1.confirmation.zeroFrames == 1 && s1.publisherEpoch == Some(x.epoch) && s1.lastSequence == Some(x.sequence);
  }

  /** The chain is enough: a fresh request, its brake, the acknowledgement in either order, two new zero frames. */
  lemma EvidenceCanBeSupplied(h: seq<Event>, g: nat, brake: FinalCommand, ack: CommandStatus, x: Hardware, y: Hardware,
                              early: bool)
    requires After(h).lastGeneration < g
    requires BrakeFor(Final(brake), g, brake.commandId) && AckFor(Status(ack), g, brake.commandId)
    requires x.epoch == y.epoch != 0 && x.sequence < y.sequence && Still(x) && Still(y)
    ensures var evidence := if early then [Status(ack), Final(brake)] else [Final(brake), Status(ack)];
            Ready(After(h + [Request(g, true)] + evidence + [Frame(x), Frame(y)]))
  {
    var first := if early then Status(ack) else Final(brake);
    var second := if early then Final(brake) else Status(ack);
    var h0 := h + [Request(g, true)];
    var h2 := h0 + [first] + [second];
    AfterStep(h, Request(g, true));
    AfterStep(h0, first);
    AfterStep(h0 + [first], second);
    AfterStep(h2, Frame(x));
    AfterStep(h2 + [Frame(x)], Frame(y));
    BrakeCanBeConfirmed(After(h), g, brake, ack, early);
    FramesConfirm(After(h2), x, y);
    assert h + [Request(g, true)] + (if early then [Status(ack), Final(brake)] else [Final(brake), Status(ack)])
           + [Frame(x), Frame(y)] == h2 + [Frame(x)] + [Frame(y)];
  }

  lemma AfterStep(h: seq<Event>, e: Event)
    ensures After(h + [e]) == Step(After(h), e)
  {
    assert (h + [e])[..|h|] == h;
  }

  // ---------------------------------------------------------------------------------------------
  // A brake that failed
  // ---------------------------------------------------------------------------------------------

  /** Which failure a status reports. */
  predicate Names(failure: BrakeFailure, state: nat) {
    match failure
    case NoFailure => false
    case Rejected => state == STATE_REJECTED
    case TimedOut => state == STATE_TIMED_OUT
    case TransportLost => state == STATE_TRANSPORT_LOST
    case Superseded => state == STATE_SUPERSEDED
    case CorrelationOverflow => false
  }

  /** A status that acknowledges the brake in force is SENT or ACKNOWLEDGED, and both do. */
  lemma AcknowledgedExactlyBy(s: State, e: Event)
    requires s.active && s.failure == NoFailure && s.commandApplied && !s.acknowledged
    requires StatusFor(e, s.generation, s.commandId)
    ensures Step(s, e).acknowledged <==> e.status.state == STATE_SENT || e.status.state == STATE_ACKNOWLEDGED
  {
  }

  /** A failure leaves no evidence behind, and never more than sixteen early statuses are remembered. */
  predicate Bounded(s: State) {
    && |s.pending| <= 16
    && (s.failure != NoFailure ==> !s.acknowledged && s.pending == map[] && s.confirmation == UNCONFIRMED)
  }

  lemma StatusStaysBounded(s: State, status: CommandStatus)
    requires Bounded(s)
    ensures Bounded(CommandStatusObserved(s, status))
  {
  }

  lemma FinalStaysBounded(s: State, c: FinalCommand)
    requires Bounded(s)
    ensures Bounded(FinalCommandObserved(s, c))
  {
  }

  lemma FrameStaysBounded(s: State, x: Hardware)
    requires Bounded(s)
    ensures Bounded(HardwareObserved(s, x))
  {
  }

  lemma {:induction false} AlwaysBounded(h: seq<Event>)
    ensures Bounded(After(h))
  {
    hide FinalCommandObserved, CommandStatusObserved, HardwareObserved;
    if h != [] {
      var last := |h| - 1;
      AlwaysBounded(h[..last]);
      var s := After(h[..last]);
      match h[last]
      case Restore(_, _, _) =>
      case Request(_, _) =>
      case Release(_) =>
      case Idle(_) =>
      case Final(c) => FinalStaysBounded(s, c);
      case Status(status) => StatusStaysBounded(s, status);
      case Frame(x) => FrameStaysBounded(s, x);
    }
  }

  /** Sixteen early statuses are remembered; a further command's latches the overflow, and nothing else does. */
  lemma OverflowsExactlyWhen(s: State, e: Event)
    requires s.active && s.failure == NoFailure && e.Status?
    requires AckFor(e, s.generation, e.status.commandId) || FailureFor(e, s.generation, e.status.commandId)
    ensures Step(s, e).failure.CorrelationOverflow? <==>
              && !(s.commandApplied && e.status.commandId == s.commandId)
              && e.status.commandId !in s.pending && |s.pending| >= 16
  {
  }

  /** Until a new request is accepted a gate with a latched failure is not ready; while open it shows the failure. */
  lemma {:induction false} FailureStays(h: seq<Event>, later: seq<Event>)
    requires var s := After(h); s.active && s.failure != NoFailure
    requires forall k :: 0 <= k < |later| && later[k].Request? ==> later[k].generation <= After(h).lastGeneration
    ensures
      var s, s' := After(h), After(h + later);
      && !Ready(s') && !s'.acknowledged && !s'.pristine && s'.lastGeneration == s.lastGeneration
      && (s'.active ==> s'.generation == s.generation && PhaseOf(s') == BrakeFailed(s.failure))
      && (!s'.active ==> exists k :: 0 <= k < |later| && later[k] == Release(s.generation))
  {
    if later == [] {
      assert h + later == h;
      var w := InvHolds(h);
      AlwaysBounded(h);
    } else {
      var last := |later| - 1;
      var before := later[..last];
      FailureStays(h, before);
      AfterStep(h + before, later[last]);
      assert h + before + [later[last]] == h + later;
    }
  }

  /**
   A brake reported rejected, timed out, lost or superseded: the gate stops being ready, names that failure, and whatever
   comes later, acknowledgements and zero frames included, is not ready again before a new request.
   */
  lemma FailedBrakeIsNotReady(h: seq<Event>, e: Event, later: seq<Event>)
    requires var s := After(h); s.active && s.failure == NoFailure && s.commandApplied
    requires FailureFor(e, After(h).generation, After(h).commandId)
    requires forall k :: 0 <= k < |later| && later[k].Request? ==> later[k].generation <= After(h).lastGeneration
    ensures
      var s, s' := After(h), After(h + [e] + later);
      && !Ready(s') && !s'.acknowledged
      && (s'.active ==> PhaseOf(s').BrakeFailed? && Names(PhaseOf(s').failure, e.status.state))
      && (!s'.active ==> exists k :: 0 <= k < |later| && later[k] == Release(s.generation))
  {
    AfterStep(h, e);
    FailureStays(h + [e], later);
  }
}
