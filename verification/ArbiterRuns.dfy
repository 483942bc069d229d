/** Whole runs of the command arbiter: what the history of inputs says about the output, and what releases a stop. */
module ArbiterRuns {
  import opened Wrappers
  import opened CommandArbiter

  datatype Input =
    | Update(source: Source, command: Command, at: nat)
    | Brush(enabled: bool, speed: int, intent: bool)
    | Maintenance(active: bool, generation: nat)

  function Step(c: Core, e: Input): Core {
    match e
    case Update(source, command, at) => Updated(c, source, command, at).0
    case Brush(enabled, speed, intent) => BrushSet(c, enabled, speed, intent)
    case Maintenance(active, generation) => MaintenanceSet(c, active, generation).0
  }

  function After(h: seq<Input>): Core {
    if h == [] then INITIAL_CORE else var last := |h| - 1; Step(After(h[..last]), h[last])
  }

  predicate IsStop(e: Input) { e.Update? && EmergencyStop(e.source, e.command) }

  /** The `k`-th input was a command the arbiter accepted. */
  predicate Accepted(h: seq<Input>, k: nat)
    requires k < |h|
  {
    h[k].Update? && Updated(After(h[..k]), h[k].source, h[k].command, h[k].at).1
  }

  /** The `k`-th input opened, closed or renumbered the maintenance gate. */
  predicate ChangesGate(h: seq<Input>, k: nat)
    requires k < |h|
  {
    h[k].Maintenance? && Step(After(h[..k]), h[k]).gate != After(h[..k]).gate
  }

  /** Neither an emergency stop nor a maintenance change since `i`. */
  ghost predicate QuietSince(h: seq<Input>, i: nat) {
    forall k :: i < k < |h| ==> !IsStop(h[k]) && !ChangesGate(h, k)
  }

  /** An operator's intent that the arbiter accepts: it puts that operator in charge. */
  predicate TakesOver(c: Core, e: Input) {
    && e.Update? && Updated(c, e.source, e.command, e.at).1
    && OperatorSource(e.source) && e.command.active && e.command.operatorIntent
  }

  /** What ends a command of `source`: its next one, a stop, a maintenance change, or an operator taking over. */
  predicate Revokes(c: Core, e: Input, source: Source) {
    || IsStop(e)
    || (e.Maintenance? && Step(c, e).gate != c.gate)
    || (e.Update? && e.source == source && Updated(c, e.source, e.command, e.at).1)
    || (OperatorSource(source) && TakesOver(c, e))
  }

  predicate RevokedAt(h: seq<Input>, k: nat, source: Source)
    requires k < |h|
  {
    Revokes(After(h[..k]), h[k], source)
  }

  /** The `i`-th input was accepted as a command of `source`, it fills `slot`, and nothing has revoked it. */
  ghost predicate Backs(h: seq<Input>, i: nat, source: Source, slot: Slot) {
    && i < |h| && slot.present && h[i] == Update(source, slot.command, slot.receivedAt) && Accepted(h, i)
    && slot.command.active && !IsStop(h[i])
    && forall k :: i < k < |h| ==> !RevokedAt(h, k, source)
  }

  /** Brush inputs count outside maintenance; under a stop only an operator's intent does. */
  predicate BrushCounts(c: Core, e: Input) {
    e.Brush? && !c.gate.active && (e.intent || !c.stopped)
  }

  /** What ends a brush command: the next one that counts, a stop, or a maintenance change. */
  predicate RevokesBrush(c: Core, e: Input) {
    IsStop(e) || (e.Maintenance? && Step(c, e).gate != c.gate) || BrushCounts(c, e)
  }

  predicate BrushRevokedAt(h: seq<Input>, k: nat)
    requires k < |h|
  {
    RevokesBrush(After(h[..k]), h[k])
  }

  /** The `i`-th input turned the brush on at `speed`, and nothing has revoked it. */
  ghost predicate BacksBrush(h: seq<Input>, i: nat, speed: int) {
    && i < |h| && BrushCounts(After(h[..i]), h[i]) && h[i].enabled
    && speed == (if h[i].speed > 100 then 100 else if h[i].speed < -100 then -100 else h[i].speed)
    && forall k :: i < k < |h| ==> !BrushRevokedAt(h, k)
  }

  /** The `i`-th input put operator `a` in charge, and no stop, maintenance change or other operator has ended that. */
  ghost predicate InCharge(h: seq<Input>, i: nat, a: Source) {
    && i < |h| && TakesOver(After(h[..i]), h[i]) && h[i].source == a
    && QuietSince(h, i)
    && forall k :: i < k < |h| ==> !TakesOver(After(h[..k]), h[k])
  }

  function MaxStopId(h: seq<Input>): nat {
    if h == [] then 0
    else
      var last := |h| - 1;
      if IsStop(h[last]) then Max(MaxStopId(h[..last]), h[last].command.commandId) else MaxStopId(h[..last])
  }

  function MaxStopStamp(h: seq<Input>): nat {
    if h == [] then 0
    else
      var last := |h| - 1;
      if IsStop(h[last]) then Max(MaxStopStamp(h[..last]), h[last].command.stamp) else MaxStopStamp(h[..last])
  }

  lemma {:induction false} BoundariesCoverEveryStop(h: seq<Input>, k: nat)
    requires k < |h| && IsStop(h[k])
    ensures h[k].command.commandId <= MaxStopId(h) && h[k].command.stamp <= MaxStopStamp(h)
  {
    var last := |h| - 1;
    if k < last {
      assert h[..last][k] == h[k];
      BoundariesCoverEveryStop(h[..last], k);
    }
  }

  ghost predicate StopAt(h: seq<Input>, k: nat) { k < |h| && IsStop(h[k]) }

  /** The boundaries are those of stops of the run, where it has any that give one. */
  lemma {:induction false} BoundariesAreOfStops(h: seq<Input>)
    ensures MaxStopId(h) != 0 ==> exists k: nat :: StopAt(h, k) && h[k].command.commandId == MaxStopId(h)
    ensures MaxStopStamp(h) != 0 ==> exists k: nat :: StopAt(h, k) && h[k].command.stamp == MaxStopStamp(h)
  {
    if h != [] {
      var last := |h| - 1;
      var before := h[..last];
      BoundariesAreOfStops(before);
      if MaxStopId(before) != 0 {
        var k: nat :| StopAt(before, k) && before[k].command.commandId == MaxStopId(before);
        assert StopAt(h, k) && h[k] == before[k];
      }
      if MaxStopStamp(before) != 0 {
        var k: nat :| StopAt(before, k) && before[k].command.stamp == MaxStopStamp(before);
        assert StopAt(h, k) && h[k] == before[k];
      }
      assert IsStop(h[last]) ==> StopAt(h, last);
    }
  }

  /** Newer than every stop so far: by stamp if the command and some stop have one, else by identifier. */
  ghost predicate NewerThanEveryStop(h: seq<Input>, command: Command) {
    if command.stamp != 0 && exists k: nat :: StopAt(h, k) && h[k].command.stamp != 0 then
      forall k: nat :: StopAt(h, k) ==> h[k].command.stamp < command.stamp
    else
      command.commandId != 0 && forall k: nat :: StopAt(h, k) ==> h[k].command.commandId < command.commandId
  }

  lemma NewerMeans(h: seq<Input>, command: Command)
    ensures NewerThanStop(command, MaxStopId(h), MaxStopStamp(h)) <==> NewerThanEveryStop(h, command)
  {
    BoundariesAreOfStops(h);
    forall k: nat | StopAt(h, k)
      ensures h[k].command.commandId <= MaxStopId(h) && h[k].command.stamp <= MaxStopStamp(h)
    {
      BoundariesCoverEveryStop(h, k);
    }
  }

  // ---------------------------------------------------------------------------------------------
  // Invariants
  // ---------------------------------------------------------------------------------------------

  ghost predicate SlotsBacked(h: seq<Input>, c: Core) {
    forall source :: SlotOf(c.slots, source).present ==>
      exists i :: Backs(h, i, source, SlotOf(c.slots, source))
  }

  ghost predicate BrushBacked(h: seq<Input>, c: Core) {
    && (!c.brushEnabled ==> c.brushSpeed == 0)
    && (c.brushEnabled ==> exists i :: BacksBrush(h, i, c.brushSpeed))
  }

  ghost predicate OperatorBacked(h: seq<Input>, c: Core) {
    c.operatorMode.Some? ==> exists i :: InCharge(h, i, c.operatorMode.value)
  }

  /** An operator mode excludes the commands of the other operator sources. */
  ghost predicate OperatorsExclusive(c: Core) {
    c.operatorMode.Some? ==>
      && OperatorSource(c.operatorMode.value)
      && forall source :: OperatorSource(source) && source != c.operatorMode.value ==> !SlotOf(c.slots, source).present
  }

  /** A stopped or gated arbiter holds no command at all. */
  ghost predicate Held(c: Core) {
    && (c.gate.hasState || c.gate == NO_CACHE)
    && (c.gate.active ==> forall source :: !SlotOf(c.slots, source).present)
    && (c.stopped ==> forall source :: !SlotOf(c.slots, source).present)
  }

  ghost predicate Inv(h: seq<Input>, c: Core) {
    && c.stopId == MaxStopId(h) && c.stopStamp == MaxStopStamp(h)
    && OperatorsExclusive(c) && Held(c) && SlotsBacked(h, c) && BrushBacked(h, c)
    && OperatorBacked(h, c)
  }

  lemma Prefixes(h: seq<Input>, e: Input)
    ensures forall k :: 0 <= k <= |h| ==> (h + [e])[..k] == h[..k]
    ensures (h + [e])[..|h|] == h && h[..|h|] == h
    ensures After(h + [e]) == Step(After(h), e)
  {
    assert (h + [e])[..|h|] == h;
  }

  lemma StillBacks(h: seq<Input>, e: Input, source: Source, slot: Slot, i: nat)
    requires Backs(h, i, source, slot) && !Revokes(After(h), e, source)
    ensures Backs(h + [e], i, source, slot)
  {
    Prefixes(h, e);
    var longer := h + [e];
    forall k | i < k < |longer| ensures !RevokedAt(longer, k, source) {
      assert longer[..k] == h[..k];
      assert k < |h| ==> !RevokedAt(h, k, source);
    }
  }

  lemma StillQuiet(h: seq<Input>, e: Input, i: nat)
    requires QuietSince(h, i) && !IsStop(e)
    requires e.Maintenance? ==> Step(After(h), e).gate == After(h).gate
    ensures QuietSince(h + [e], i)
  {
    Prefixes(h, e);
    var longer := h + [e];
    forall k | i < k < |longer| ensures !IsStop(longer[k]) && !ChangesGate(longer, k) {
      assert longer[..k] == h[..k];
    }
  }

  lemma StillBacksBrush(h: seq<Input>, e: Input, speed: int, i: nat)
    requires BacksBrush(h, i, speed) && !RevokesBrush(After(h), e)
    ensures BacksBrush(h + [e], i, speed)
  {
    Prefixes(h, e);
    var longer := h + [e];
    forall k | i < k < |longer| ensures !BrushRevokedAt(longer, k) {
      assert longer[..k] == h[..k];
      assert k < |h| ==> !BrushRevokedAt(h, k);
    }
  }

  lemma StillInCharge(h: seq<Input>, e: Input, i: nat, a: Source)
    requires InCharge(h, i, a) && !IsStop(e) && !TakesOver(After(h), e)
    requires e.Maintenance? ==> Step(After(h), e).gate == After(h).gate
    ensures InCharge(h + [e], i, a)
  {
    Prefixes(h, e);
    StillQuiet(h, e, i);
    var longer := h + [e];
    forall k | i < k < |longer| ensures !TakesOver(After(longer[..k]), longer[k]) {
      assert longer[..k] == h[..k];
    }
  }

  predicate Fills(c: Core, e: Input, source: Source) {
    e.Update? && e.source == source && Updated(c, source, e.command, e.at).1 && e.command.active && !IsStop(e)
  }

  /** An input fills a slot, or empties it by revoking what it held, or leaves it alone. */
  lemma SlotStep(c: Core, e: Input, source: Source)
    requires c.gate.hasState || c.gate == NO_CACHE
    ensures
      var slot' := SlotOf(Step(c, e).slots, source);
      if Fills(c, e, source) then slot' == Slot(e.command, e.at, true)
      else if Revokes(c, e, source) then !slot'.present
      else slot' == SlotOf(c.slots, source)
  {
    if e.Maintenance? {
      MaintenanceWipesOrKeeps(c, e.active, e.generation);
    }
  }

  lemma SlotsStep(h: seq<Input>, e: Input)
    requires SlotsBacked(h, After(h)) && Held(After(h))
    ensures SlotsBacked(h + [e], After(h + [e]))
  {
    Prefixes(h, e);
    var c, c' := After(h), After(h + [e]);
    forall source | SlotOf(c'.slots, source).present
      ensures exists i :: Backs(h + [e], i, source, SlotOf(c'.slots, source))
    {
      SlotStep(c, e, source);
      if Fills(c, e, source) {
        assert Backs(h + [e], |h|, source, SlotOf(c'.slots, source));
      } else {
        var i :| Backs(h, i, source, SlotOf(c.slots, source));
        StillBacks(h, e, source, SlotOf(c.slots, source), i);
      }
    }
  }

  /** An input sets the brush, or turns it off by revoking it, or leaves it alone. */
  lemma BrushStepped(c: Core, e: Input)
    requires c.gate.hasState || c.gate == NO_CACHE
    requires !c.brushEnabled ==> c.brushSpeed == 0
    ensures
      var c' := Step(c, e);
      && (!c'.brushEnabled ==> c'.brushSpeed == 0)
      && (c'.brushEnabled <==> if RevokesBrush(c, e) then BrushCounts(c, e) && e.enabled else c.brushEnabled)
      && (c'.brushEnabled && !BrushCounts(c, e) ==> c'.brushSpeed == c.brushSpeed)
      && (c'.brushEnabled && BrushCounts(c, e) ==> c'.brushSpeed == Max(-100, Min(100, e.speed)))
  {
    if e.Maintenance? {
      MaintenanceWipesOrKeeps(c, e.active, e.generation);
    }
  }

  lemma BrushStep(h: seq<Input>, e: Input)
    requires BrushBacked(h, After(h)) && Held(After(h))
    ensures BrushBacked(h + [e], After(h + [e]))
  {
    Prefixes(h, e);
    var c, c' := After(h), After(h + [e]);
    BrushStepped(c, e);
    if c'.brushEnabled {
      if BrushCounts(c, e) {
        assert BacksBrush(h + [e], |h|, c'.brushSpeed);
      } else {
        var i :| BacksBrush(h, i, c.brushSpeed);
        StillBacksBrush(h, e, c.brushSpeed, i);
      }
    }
  }

  /** An operator is put in charge by taking over, and stays so until a stop or a maintenance change. */
  lemma OperatorStepped(c: Core, e: Input)
    requires c.gate.hasState || c.gate == NO_CACHE
    ensures Step(c, e).operatorMode ==
              if TakesOver(c, e) then Some(e.source)
              else if IsStop(e) || (e.Maintenance? && Step(c, e).gate != c.gate) then None
              else c.operatorMode
  {
    if e.Maintenance? {
      MaintenanceWipesOrKeeps(c, e.active, e.generation);
    }
  }

  lemma OperatorStep(h: seq<Input>, e: Input)
    requires OperatorBacked(h, After(h)) && Held(After(h))
    ensures OperatorBacked(h + [e], After(h + [e]))
  {
    Prefixes(h, e);
    var c, c' := After(h), After(h + [e]);
    OperatorStepped(c, e);
    if c'.operatorMode.Some? {
      if TakesOver(c, e) {
        assert InCharge(h + [e], |h|, c'.operatorMode.value);
      } else {
        var i :| InCharge(h, i, c.operatorMode.value);
        StillInCharge(h, e, i, c.operatorMode.value);
      }
    }
  }

  lemma BoundariesStep(h: seq<Input>, e: Input)
    requires After(h).stopId == MaxStopId(h) && After(h).stopStamp == MaxStopStamp(h)
    ensures After(h + [e]).stopId == MaxStopId(h + [e]) && After(h + [e]).stopStamp == MaxStopStamp(h + [e])
  {
    Prefixes(h, e);
  }

  lemma UpdateKeepsModes(c: Core, source: Source, command: Command, at: nat)
    requires OperatorsExclusive(c) && Held(c)
    ensures var c' := Updated(c, source, command, at).0; OperatorsExclusive(c') && Held(c')
  {
  }

  lemma ModesStep(c: Core, e: Input)
    requires OperatorsExclusive(c) && Held(c)
    ensures OperatorsExclusive(Step(c, e)) && Held(Step(c, e))
  {
    match e {
      case Update(source, command, at) => UpdateKeepsModes(c, source, command, at);
      case Brush(_, _, _) =>
      case Maintenance(active, generation) => MaintenanceWipesOrKeeps(c, active, generation);
    }
  }

  lemma {:induction false} AfterInv(h: seq<Input>)
    ensures Inv(h, After(h))
  {
    if h != [] {
      var last := |h| - 1;
      assert h == h[..last] + [h[last]];
      AfterInv(h[..last]);
      SlotsStep(h[..last], h[last]);
      BrushStep(h[..last], h[last]);
      OperatorStep(h[..last], h[last]);
      BoundariesStep(h[..last], h[last]);
      ModesStep(After(h[..last]), h[last]);
    }
  }

  // ---------------------------------------------------------------------------------------------
  // What the history says is what the core holds
  // ---------------------------------------------------------------------------------------------

  lemma {:induction false} BackedIsHeld(h: seq<Input>, i: nat, source: Source, slot: Slot)
    requires Backs(h, i, source, slot)
    ensures SlotOf(After(h).slots, source) == slot
  {
    var last := |h| - 1;
    var before := h[..last];
    assert h == before + [h[last]];
    AfterInv(before);
    SlotStep(After(before), h[last], source);
    if i < last {
      assert forall k :: i < k < last ==> before[..k] == h[..k];
      assert forall k :: i < k < last ==> RevokedAt(before, k, source) == RevokedAt(h, k, source);
      assert before[..i] == h[..i];
      BackedIsHeld(before, i, source, slot);
      assert !RevokedAt(h, last, source);
    }
  }

  lemma {:induction false} BrushBackedIsOn(h: seq<Input>, i: nat, speed: int)
    requires BacksBrush(h, i, speed)
    ensures After(h).brushEnabled && After(h).brushSpeed == speed
  {
    var last := |h| - 1;
    var before := h[..last];
    assert h == before + [h[last]];
    AfterInv(before);
    BrushStepped(After(before), h[last]);
    if i < last {
      assert forall k :: i < k < last ==> before[..k] == h[..k];
      assert forall k :: i < k < last ==> BrushRevokedAt(before, k) == BrushRevokedAt(h, k);
      assert before[..i] == h[..i];
      BrushBackedIsOn(before, i, speed);
      assert !BrushRevokedAt(h, last);
    }
  }

  lemma {:induction false} InChargeIsTheMode(h: seq<Input>, i: nat, a: Source)
    requires InCharge(h, i, a)
    ensures After(h).operatorMode == Some(a)
  {
    var last := |h| - 1;
    var before := h[..last];
    assert h == before + [h[last]];
    AfterInv(before);
    OperatorStepped(After(before), h[last]);
    if i < last {
      assert forall k :: i < k < last ==> before[..k] == h[..k];
      assert forall k :: i < k < last ==> ChangesGate(before, k) == ChangesGate(h, k);
      assert before[..i] == h[..i];
      InChargeIsTheMode(before, i, a);
      assert !TakesOver(After(h[..last]), h[last]) && !ChangesGate(h, last);
    }
  }

  // ---------------------------------------------------------------------------------------------
  // Theorems
  // ---------------------------------------------------------------------------------------------

  /** Emergency and safety commands last until they are revoked; operators have a lease each, 0 meaning the same. */
  predicate WithinLease(p: Parameters, source: Source, at: nat, now: nat) {
    || source.Emergency? || source.Safety? || now <= at
    || (source.Manual? && (p.manualLease == 0 || now <= at + p.manualLease))
    || (source.Mission? && (p.missionLease == 0 || now <= at + p.missionLease))
    || (source.Vision? && (p.visionLease == 0 || now <= at + p.visionLease))
  }

  /** The `i`-th input is an unrevoked command of `source` within its lease. */
  ghost predicate Stands(p: Parameters, h: seq<Input>, now: nat, i: nat, source: Source) {
    i < |h| && h[i].Update? && Backs(h, i, source, Slot(h[i].command, h[i].at, true))
    && WithinLease(p, source, h[i].at, now)
  }

  /** A source is live exactly when the history holds a standing command of it. */
  lemma LiveExactlyWhenStanding(p: Parameters, h: seq<Input>, now: nat, source: Source)
    ensures Live(p, After(h), source, now) <==> exists i :: Stands(p, h, now, i, source)
  {
    AfterInv(h);
    var slot := SlotOf(After(h).slots, source);
    if Live(p, After(h), source, now) {
      var i :| Backs(h, i, source, slot);
      assert Stands(p, h, now, i, source);
    }
    if i: nat :| Stands(p, h, now, i, source) {
      BackedIsHeld(h, i, source, Slot(h[i].command, h[i].at, true));
    }
  }

  /** The `i`-th input stands, and no source before its own in the fixed order has a standing command. */
  ghost predicate StandsFirst(p: Parameters, h: seq<Input>, now: nat, i: nat, source: Source) {
    && Stands(p, h, now, i, source)
    && forall other, k :: Outranks(other, source) ==> !Stands(p, h, now, k, other)
  }

  /** The output is the `i`-th input's command, but for the brush. */
  predicate SameMotion(output: Command, command: Command) {
    output == command.(brushSpeed := output.brushSpeed)
  }

  /**
   Over every run: with no gate and no stop, the output is decided by the first standing command, in the fixed order of
   sources: if that is a brake everything is at zero, else it is the output, with the brush as it was last set.
   */
  lemma FirstStandingCommandIsObeyed(p: Parameters, h: seq<Input>, now: nat, i: nat, source: Source)
    requires !After(h).gate.active && !After(h).stopped && StandsFirst(p, h, now, i, source)
    ensures
      var r := Output(p, After(h), now);
      && (h[i].command.brake ==> r.brake && StandsStill(r) && r.source == h[i].command.source)
      && (!h[i].command.brake ==> SameMotion(r, h[i].command))
      && (!h[i].command.brake ==> forall b, speed :: BacksBrush(h, b, speed) ==> r.brushSpeed == speed)
      && ((forall b, speed :: !BacksBrush(h, b, speed)) ==> r.brushSpeed == 0)
  {
    AfterInv(h);
    LiveExactlyWhenStanding(p, h, now, source);
    BackedIsHeld(h, i, source, Slot(h[i].command, h[i].at, true));
    forall other | Outranks(other, source) ensures !Live(p, After(h), other, now) {
      LiveExactlyWhenStanding(p, h, now, other);
    }
    HighestLiveSourceIsObeyed(p, After(h), now, source);
    forall b, speed | BacksBrush(h, b, speed) ensures After(h).brushEnabled && After(h).brushSpeed == speed {
      BrushBackedIsOn(h, b, speed);
    }
  }

  /** Over every run: with no standing command at all the vehicle brakes, or stands and brushes as it was last told. */
  lemma NobodyStandingOnlyBrushes(p: Parameters, h: seq<Input>, now: nat)
    requires !After(h).gate.active && !After(h).stopped
    requires forall i, source :: !Stands(p, h, now, i, source)
    ensures
      var r := Output(p, After(h), now);
      && !Moves(r)
      && (forall b, speed :: BacksBrush(h, b, speed) ==> !r.brake && r.brushSpeed == speed && r.source == "brush_only")
      && ((forall b, speed :: !BacksBrush(h, b, speed)) ==> r.brake && StandsStill(r) && r.source == "idle_brake")
  {
    AfterInv(h);
    forall source ensures !Live(p, After(h), source, now) {
      LiveExactlyWhenStanding(p, h, now, source);
    }
    NobodyLiveStandsStill(p, After(h), now);
    forall b, speed | BacksBrush(h, b, speed) ensures After(h).brushEnabled && After(h).brushSpeed == speed {
      BrushBackedIsOn(h, b, speed);
    }
  }

  /**
   Over every run: if the output moves the vehicle, it is an accepted command that nothing has revoked, not a brake and
   within its lease, and no source before its own has such a command; no gate is active and no stop is latched.
   */
  lemma MotionHasProvenance(p: Parameters, h: seq<Input>, now: nat)
    requires Moves(Output(p, After(h), now))
    ensures !After(h).gate.active && !After(h).stopped
    ensures exists i: nat, source ::
              && StandsFirst(p, h, now, i, source)
              && !h[i].command.brake && SameMotion(Output(p, After(h), now), h[i].command)
  {
    if forall source :: !Live(p, After(h), source, now) {
      NobodyLiveStandsStill(p, After(h), now);
    }
    var source := HighestLive(p, After(h), now);
    LiveExactlyWhenStanding(p, h, now, source);
    var i: nat :| Stands(p, h, now, i, source);
    forall other, k | Outranks(other, source) ensures !Stands(p, h, now, k, other) {
      LiveExactlyWhenStanding(p, h, now, other);
    }
    FirstStandingCommandIsObeyed(p, h, now, i, source);
  }

  lemma HighestLive(p: Parameters, c: Core, now: nat) returns (source: Source)
    requires exists source :: Live(p, c, source, now)
    ensures Live(p, c, source, now) && forall other :: Outranks(other, source) ==> !Live(p, c, other, now)
  {
    source := if Live(p, c, Emergency, now) then Emergency
              else if Live(p, c, Safety, now) then Safety
              else if Live(p, c, Manual, now) then Manual
              else if Live(p, c, Mission, now) then Mission
              else Vision;
  }

  /** The brush runs only by a brush command newer than every emergency stop and maintenance change, within +-100. */
  lemma BrushHasProvenance(p: Parameters, h: seq<Input>, now: nat)
    requires Output(p, After(h), now).brushSpeed != 0
    ensures !After(h).gate.active && !After(h).stopped
    ensures exists i :: BacksBrush(h, i, Output(p, After(h), now).brushSpeed)
    ensures -100 <= Output(p, After(h), now).brushSpeed <= 100
  {
    AfterInv(h);
  }

  /** With an operator in charge, no other operator source has any command left to obey. */
  lemma OneOperatorAtATime(h: seq<Input>, i: nat, a: Source, k: nat, b: Source, slot: Slot)
    requires InCharge(h, i, a) && OperatorSource(b) && Backs(h, k, b, slot)
    ensures a == b
  {
    AfterInv(h);
    InChargeIsTheMode(h, i, a);
    BackedIsHeld(h, k, b, slot);
  }

  /**
   What the arbiter accepts after `h`: emergency stops always; under the gate nothing else; otherwise what withdraws a
   command, under a stop an operator's newer intent, and without a stop everything but another operator's command that
   shows no intent while one is in charge.
   */
  lemma AcceptedExactlyWhen(h: seq<Input>, source: Source, command: Command, at: nat)
    ensures
      Updated(After(h), source, command, at).1 <==>
        || EmergencyStop(source, command)
        || (&& !After(h).gate.active
            && (|| !command.active
                || (if After(h).stopped then
                      OperatorSource(source) && command.operatorIntent
                      && NewerThanEveryStop(h, command)
                    else
                      OperatorSource(source) && !command.operatorIntent ==>
                        !exists i, a :: InCharge(h, i, a) && a != source)))
  {
    AfterInv(h);
    NewerMeans(h, command);
    if i, a :| InCharge(h, i, a) && a != source {
      InChargeIsTheMode(h, i, a);
    }
  }

  /** The command that ends a stop: an operator's intent, newer than all stops before it. */
  ghost predicate ReleasesStop(h: seq<Input>, k: nat) {
    && k < |h| && h[k].Update? && OperatorSource(h[k].source) && h[k].command.active && h[k].command.operatorIntent
    && NewerThanEveryStop(h[..k], h[k].command)
  }

  /**
   A latched stop ends only by an operator-intent command newer than the largest boundary of all emergency stops
   so far; until then every output is a standstill.
   */
  lemma {:induction false} StopEndsOnlyByNewerIntent(h: seq<Input>, i: nat)
    requires i <= |h| && After(h[..i]).stopped
    ensures After(h).stopped || exists k :: i <= k && ReleasesStop(h, k)
  {
    if i == |h| {
      assert h[..i] == h;
    } else {
      var last := |h| - 1;
      var before := h[..last];
      assert before[..i] == h[..i];
      StopEndsOnlyByNewerIntent(before, i);
      if After(before).stopped {
        AfterInv(before);
        if !After(h).stopped {
          NewerMeans(before, h[last].command);
          assert ReleasesStop(h, last);
        }
      } else {
        var k :| i <= k && ReleasesStop(before, k);
        assert before[..k] == h[..k];
        assert ReleasesStop(h, k);
      }
    }
  }

  /** And it does end it, outside maintenance: the operator is in charge, and the command stands. */
  lemma NewerIntentEndsTheStop(h: seq<Input>, k: nat)
    requires ReleasesStop(h, k) && k == |h| - 1 && After(h[..k]).stopped && !After(h[..k]).gate.active
    ensures !After(h).stopped && InCharge(h, k, h[k].source)
    ensures Backs(h, k, h[k].source, Slot(h[k].command, h[k].at, true))
  {
    AcceptedExactlyWhen(h[..k], h[k].source, h[k].command, h[k].at);
  }

  lemma StoppedStandsStill(p: Parameters, c: Core, now: nat)
    requires c.stopped
    ensures !c.gate.active ==> Output(p, c, now).source == "software_emergency_stop" && Output(p, c, now).priority == 100
    ensures Output(p, c, now).brake && StandsStill(Output(p, c, now))
  {
  }
}
