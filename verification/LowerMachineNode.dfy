/** How the lower-machine node maps vehicle commands onto the serial queue, and why a brake always gets through. */
module LowerMachineNode {
  import opened Wrappers
  import opened WriteQueue
  import opened SerialWriter

  const QUEUE_CAPACITY: nat := 32

  datatype VehicleCommand = VehicleCommand(
    brake: bool, charge: bool, targetDistance: int, targetRotation: int, status: bv8)

  predicate IsLegacyControl(status: bv8) {
    status == 0xe0 || status == 0xea || status == 0xfa || status == 0xfb
  }

  predicate IsFiniteCommand(c: VehicleCommand) {
    || c.charge || c.targetDistance != 0 || c.targetRotation != 0
    || c.status == 2 || c.status == 3 || c.status == 5 || IsLegacyControl(c.status)
  }

  function PriorityFor(c: VehicleCommand): nat {
    if c.brake then SAFETY else if IsFiniteCommand(c) then FINITE else CONTINUOUS
  }

  function KeyFor(c: VehicleCommand): string {
    if c.brake then "brake" else if IsFiniteCommand(c) then "" else "motion"
  }

  /** What the node sends: a mapped command, or the stop that follows every connection. */
  ghost predicate FromNode(e: Input) {
    e.Send? ==>
      || (exists c: VehicleCommand :: e.priority == PriorityFor(c) && e.key == KeyFor(c))
      || (e.priority == SAFETY && e.key == "reconnect-stop")
  }

  /** Only the two kinds of stop carry safety priority, and nothing carries more; motion carries the least. */
  ghost predicate Disciplined(items: seq<Item>) {
    forall i :: 0 <= i < |items| ==>
      && items[i].priority <= SAFETY
      && (items[i].priority == SAFETY ==> items[i].key == "brake" || items[i].key == "reconnect-stop")
      && (items[i].key == "motion" ==> items[i].priority == CONTINUOUS)
      && (items[i].key == "" ==> items[i].priority == FINITE)
  }

  lemma WithoutKeepsDiscipline(items: seq<Item>, i: nat)
    requires Disciplined(items) && i < |items|
    ensures Disciplined(Without(items, i))
  {
    assert forall k :: 0 <= k < |items| - 1 ==> Without(items, i)[k] == items[if k < i then k else k + 1];
  }

  lemma WithKeepsDiscipline(items: seq<Item>, at: nat, item: Item)
    requires Disciplined(items) && at <= |items| && Disciplined([item])
    ensures Disciplined(With(items, at, item))
  {
    assert [item][0] == item;
    assert forall k :: 0 <= k < |items| + 1 ==>
             With(items, at, item)[k] == if k == at then item else items[if k < at then k else k - 1];
  }

  lemma EnqueueKeepsDiscipline(capacity: nat, items: seq<Item>, item: Item, preserveFront: bool)
    requires Disciplined(items) && Disciplined([item])
    ensures Disciplined(Enqueued(capacity, items, item, preserveFront).items)
  {
    if item.frame != [] {
      var from := FirstMutable(items, preserveFront);
      var (coalesced, superseded) := Coalesced(items, item.key, from);
      if superseded.Some? {
        WithoutKeepsDiscipline(items, KeyIndex(items, from, item.key));
      }
      var room := MadeRoom(capacity, coalesced, item.priority, from);
      if room.evicted.Some? {
        WithoutKeepsDiscipline(coalesced, Victim(coalesced, from, item.priority).value);
      }
      if room.found {
        WithKeepsDiscipline(room.items, InsertionIndex(room.items, from, item.priority), item);
      }
    }
  }

  lemma StepKeepsDiscipline(capacity: nat, s: State, e: Input)
    requires Disciplined(s.items) && FromNode(e)
    ensures Disciplined(Step(capacity, s, e).items)
  {
    if e.Send? {
      var item := Item(s.next, e.frame, e.priority, e.key, e.hasCallback);
      assert [item][0] == item;
      EnqueueKeepsDiscipline(capacity, s.items, item, s.writing);
    }
  }

  ghost predicate NodeRun(capacity: nat, inputs: seq<Input>) {
    TimelyRun(capacity, inputs) && forall i :: 0 <= i < |inputs| ==> FromNode(inputs[i])
  }

  lemma {:induction false} RunIsDisciplined(capacity: nat, inputs: seq<Input>)
    requires NodeRun(capacity, inputs)
    ensures Disciplined(After(capacity, inputs).items)
  {
    if inputs != [] {
      var last := |inputs| - 1;
      TimelyPrefix(capacity, inputs, last);
      RunIsDisciplined(capacity, inputs[..last]);
      StepKeepsDiscipline(capacity, After(capacity, inputs[..last]), inputs[last]);
    }
  }

  /** At most one waiting batch besides the brake itself has safety priority. */
  lemma FewSafetyBatches(items: seq<Item>)
    requires Disciplined(items) && InOrder(items) && KeysOnce(items) && KeyAbsent(items, "brake")
    ensures forall i :: 2 <= i < |items| ==> items[i].priority < SAFETY
    ensures 1 <= |items| ==> InsertionIndex(items, 1, SAFETY) <= 2
  {
    forall i | 2 <= i < |items| ensures items[i].priority < SAFETY {
      assert Before(items[1], items[i]);
      assert items[1].key == items[i].key ==> items[1].key == "";
    }
    if |items| >= 3 {
      assert items[2].priority < SAFETY;
    }
  }

  lemma RoomForBrake(capacity: nat, items: seq<Item>, brake: Item)
    requires items != [] && |items| <= capacity && 3 <= capacity && Tidy(items, brake.ticket) && Disciplined(items)
    requires KeyAbsent(items, "brake") && brake.priority == SAFETY && brake.key == "brake"
    ensures var room := MadeRoom(capacity, items, SAFETY, 1);
            room.found && room.items != [] && InsertionIndex(room.items, 1, SAFETY) <= 2
  {
    FewSafetyBatches(items);
    if |items| == capacity {
      assert Evictable(items[2], SAFETY);
      WithoutKeepsDiscipline(items, Victim(items, 1, SAFETY).value);
    }
    MakingRoomKeeps(capacity, items, brake);
    FewSafetyBatches(MadeRoom(capacity, items, SAFETY, 1).items);
  }

  /** A brake offered to a queue of at least three is taken, and at most two batches go out before it. */
  lemma BrakeGetsIn(capacity: nat, items: seq<Item>, brake: Item) returns (at: nat)
    requires items != [] && |items| <= capacity && 3 <= capacity && Tidy(items, brake.ticket) && Disciplined(items)
    requires brake.priority == SAFETY && brake.key == "brake" && brake.frame != []
    ensures var o := Enqueued(capacity, items, brake, true);
            o.accepted && 1 <= at <= 2 && at < |o.items| && o.items[at] == brake
  {
    CoalesceKeeps(items, brake);
    var coalesced := Coalesced(items, "brake", 1).0;
    if coalesced != items {
      WithoutKeepsDiscipline(items, KeyIndex(items, 1, "brake"));
    }
    RoomForBrake(capacity, coalesced, brake);
    at := InsertionIndex(MadeRoom(capacity, coalesced, SAFETY, 1).items, 1, SAFETY);
  }

  /**
   Over every run of the node with room for three batches (the node has 32): a brake sent while connected is accepted,
   and at that moment at most two batches, one of them already in flight, will be written before it.
   */
  lemma BrakeIsNeverRejected(capacity: nat, inputs: seq<Input>, c: VehicleCommand, frame: seq<bv8>, hasCallback: bool)
    requires 3 <= capacity && NodeRun(capacity, inputs) && After(capacity, inputs).connected
    requires c.brake && frame != []
    ensures var s := After(capacity, inputs);
            var s' := Step(capacity, s, Send(frame, PriorityFor(c), KeyFor(c), hasCallback));
            && s.next in s'.ledger.accepted
            && exists i :: 0 <= i <= 2 && i < |s'.items| && s'.items[i].ticket == s.next
  {
    RunKeepsInv(capacity, inputs);
    RunIsDisciplined(capacity, inputs);
    var s := After(capacity, inputs);
    var brake := Item(s.next, frame, SAFETY, "brake", hasCallback);
    var s' := Step(capacity, s, Send(frame, PriorityFor(c), KeyFor(c), hasCallback));
    if s.writing {
      var i := BrakeGetsIn(capacity, s.items, brake);
      assert s'.items[i].ticket == s.next;
    } else {
      assert Enqueued(capacity, [], brake, false) == Outcome(true, [brake], None, None);
      assert s'.items[0].ticket == s.next;
    }
  }

  lemma RemovalMoves(items: seq<Item>, d: nat, i: nat) returns (j: nat)
    requires 1 <= d < |items| && 1 <= i < |items| && d != i
    ensures 1 <= j <= i && j < |items| - 1 && Without(items, d)[j] == items[i]
  {
    j := if d < i then i - 1 else i;
  }

  lemma CoalescingMoves(items: seq<Item>, key: string, i: nat) returns (j: nat)
    requires 1 <= i < |items| && Coalesced(items, key, 1).1 != Some(items[i])
    ensures var coalesced := Coalesced(items, key, 1).0;
            1 <= j <= i && j < |coalesced| && coalesced[j] == items[i]
  {
    j := i;
    if key != "" && KeyIndex(items, 1, key) < |items| {
      j := RemovalMoves(items, KeyIndex(items, 1, key), i);
    }
  }

  lemma MakingRoomMoves(capacity: nat, items: seq<Item>, priority: nat, i: nat) returns (j: nat)
    requires 1 <= i < |items| && items[i].priority == SAFETY
    ensures var room := MadeRoom(capacity, items, priority, 1);
            1 <= j <= i && j < |room.items| && room.items[j] == items[i]
  {
    j := i;
    if |items| >= capacity && Victim(items, 1, priority).Some? {
      j := RemovalMoves(items, Victim(items, 1, priority).value, i);
    }
  }

  lemma BehindSafety(items: seq<Item>, priority: nat, ticket: nat, j: nat)
    requires Tidy(items, ticket) && 1 <= j < |items| && items[j].priority == SAFETY && priority <= SAFETY
    ensures j < InsertionIndex(items, 1, priority)
  {
    var at := InsertionIndex(items, 1, priority);
    assert 1 <= at < j ==> Before(items[at], items[j]);
  }

  /** A waiting safety batch never falls back: later batches queue behind it, or a newer one of its key replaces it. */
  lemma SafetyNeverFallsBack(capacity: nat, items: seq<Item>, item: Item, i: nat)
    requires items != [] && |items| <= capacity && Tidy(items, item.ticket) && item.priority <= SAFETY
    requires 1 <= i < |items| && items[i].priority == SAFETY
    ensures var o := Enqueued(capacity, items, item, true);
            || o.superseded == Some(items[i])
            || exists j :: 1 <= j <= i && j < |o.items| && o.items[j] == items[i]
  {
    var o := Enqueued(capacity, items, item, true);
    if item.frame == [] {
      assert o.items[i] == items[i];
    } else if o.superseded != Some(items[i]) {
      CoalesceKeeps(items, item);
      var coalesced := Coalesced(items, item.key, 1).0;
      var j1 := CoalescingMoves(items, item.key, i);
      MakingRoomKeeps(capacity, coalesced, item);
      var room := MadeRoom(capacity, coalesced, item.priority, 1).items;
      var j2 := MakingRoomMoves(capacity, coalesced, item.priority, j1);
      BehindSafety(room, item.priority, item.ticket, j2);
      assert Inserted(room, item, 1)[j2] == items[i];
      assert o.items[if o.accepted then j2 else j1] == items[i];
    }
  }

  ghost predicate Reached(capacity: nat, s: State) {
    exists inputs :: NodeRun(capacity, inputs) && After(capacity, inputs) == s
  }

  lemma Longer(capacity: nat, inputs: seq<Input>, e: Input)
    requires NodeRun(capacity, inputs) && Timely(After(capacity, inputs), e) && FromNode(e)
    ensures NodeRun(capacity, inputs + [e])
  {
    var longer := inputs + [e];
    forall i | 0 <= i < |longer| ensures Timely(After(capacity, longer[..i]), longer[i]) {
      assert longer[..i] == inputs[..i];
      assert i == |inputs| ==> inputs[..i] == inputs;
    }
  }

  lemma ReachedNext(capacity: nat, s: State, e: Input)
    requires Reached(capacity, s) && Timely(s, e) && FromNode(e)
    ensures Reached(capacity, Step(capacity, s, e))
  {
    var inputs :| NodeRun(capacity, inputs) && After(capacity, inputs) == s;
    Longer(capacity, inputs, e);
    assert (inputs + [e])[..|inputs|] == inputs;
    assert After(capacity, inputs + [e]) == Step(capacity, s, e);
  }

  lemma ConnectedIsReached(capacity: nat)
    ensures Reached(capacity, INITIAL.(connected := true))
  {
    assert NodeRun(capacity, []) && After(capacity, []) == INITIAL;
    ReachedNext(capacity, INITIAL, Opened(true));
  }

  /** A queue with room for two is not enough: behind a batch in flight the reconnect stop can shut the brake out. */
  lemma NarrowQueueRejectsBrake(c: VehicleCommand, frame: seq<bv8>) returns (s: State)
    requires frame != [] && !c.brake
    ensures Reached(2, s) && s.connected
    ensures s.next !in Step(2, s, Send(frame, SAFETY, "brake", false)).ledger.accepted
  {
    ConnectedIsReached(2);
    s := INITIAL.(connected := true);
    var first := Item(0, frame, PriorityFor(c), KeyFor(c), false);
    var second := Item(1, frame, SAFETY, "reconnect-stop", false);
    FirstFits(first);
    SecondFits(first, second);
    ThirdIsRefused(first, second, Item(2, frame, SAFETY, "brake", false));
    ReachedNext(2, s, Send(frame, first.priority, first.key, false));
    s := Step(2, s, Send(frame, first.priority, first.key, false));
    assert s == INITIAL.(connected := true, items := [first], writing := true, active := Some(first), next := 1,
                         ledger := Ledger({0}, map[], {}, []));
    ReachedNext(2, s, Send(frame, SAFETY, "reconnect-stop", false));
    s := Step(2, s, Send(frame, SAFETY, "reconnect-stop", false));
    assert s.items == [first, second] && s.connected && s.writing && s.next == 2;
    assert s.ledger.accepted == {0} + {1};
  }

  lemma FirstFits(first: Item)
    requires first.frame != []
    ensures Enqueued(2, [], first, false) == Outcome(true, [first], None, None)
  {
  }

  lemma SecondFits(first: Item, second: Item)
    requires second.frame != []
    ensures Enqueued(2, [first], second, true) == Outcome(true, [first, second], None, None)
  {
  }

  /** Both places are taken: the brake replaces no batch of its key and evicts no safety batch. */
  lemma ThirdIsRefused(first: Item, second: Item, brake: Item)
    requires second.priority == brake.priority == SAFETY && second.key == "reconnect-stop" && brake.key == "brake"
    ensures !Enqueued(2, [first, second], brake, true).accepted
  {
  }

  // ---------------------------------------------------------------------------------------------
  // Commands that are carried out to the end
  // ---------------------------------------------------------------------------------------------

  /** Charging, a distance, a rotation, or a change of mode: no later speed makes up for losing it. */
  predicate CarriedOut(c: VehicleCommand) {
    && !c.brake
    && (|| c.charge || c.targetDistance != 0 || c.targetRotation != 0
        || c.status in {2, 3, 5, 0xe0, 0xea, 0xfa, 0xfb})
  }

  /** Batch `t` is not one that a later batch can supersede, and none has. */
  ghost predicate NotSuperseded(s: State, t: nat) {
    && t < s.next
    && Keyless(s.items, t)
    && (t in s.ledger.fates ==> !s.ledger.fates[t].IsSuperseded?)
  }

  lemma {:induction false} DiscardingSupersedesNothing(l: Ledger, items: seq<Item>, t: nat)
    requires t in l.fates ==> !l.fates[t].IsSuperseded?
    ensures
      var fates := AllSettled(l, items, IsDiscarded).fates;
      t in fates ==> !fates[t].IsSuperseded?
    decreases |items|
  {
    if items != [] {
      DiscardingSupersedesNothing(Settled(l, items[0], IsDiscarded), items[1..], t);
    }
  }

  predicate Keyless(items: seq<Item>, t: nat) {
    forall i :: 0 <= i < |items| && items[i].ticket == t ==> items[i].key == ""
  }

  lemma WithoutStaysKeyless(items: seq<Item>, d: nat, t: nat)
    requires Keyless(items, t) && d < |items|
    ensures Keyless(Without(items, d), t)
  {
    assert forall k :: 0 <= k < |items| - 1 ==> Without(items, d)[k] == items[if k < d then k else k + 1];
  }

  lemma WithStaysKeyless(items: seq<Item>, at: nat, item: Item, t: nat)
    requires Keyless(items, t) && at <= |items| && (item.ticket == t ==> item.key == "")
    ensures Keyless(With(items, at, item), t)
  {
    assert forall k :: 0 <= k < |items| + 1 ==>
             With(items, at, item)[k] == if k == at then item else items[if k < at then k else k - 1];
  }

  lemma EnqueueSupersedesByKey(capacity: nat, items: seq<Item>, item: Item, preserveFront: bool, t: nat)
    requires Keyless(items, t) && (item.ticket == t ==> item.key == "")
    ensures
      var o := Enqueued(capacity, items, item, preserveFront);
      (o.superseded.Some? ==> o.superseded.value.ticket != t) && Keyless(o.items, t)
  {
    if item.frame != [] {
      var from := FirstMutable(items, preserveFront);
      var (coalesced, superseded) := Coalesced(items, item.key, from);
      if superseded.Some? {
        WithoutStaysKeyless(items, KeyIndex(items, from, item.key), t);
      }
      var room := MadeRoom(capacity, coalesced, item.priority, from);
      if room.evicted.Some? {
        WithoutStaysKeyless(coalesced, Victim(coalesced, from, item.priority).value, t);
      }
      if room.found {
        WithStaysKeyless(room.items, InsertionIndex(room.items, from, item.priority), item, t);
      }
    }
  }

  lemma SendSupersedesByKey(capacity: nat, s: State, e: Input, t: nat)
    requires NotSuperseded(s, t) && e.Send?
    ensures NotSuperseded(Step(capacity, s, e), t)
  {
    hide Enqueued;
    var item := Item(s.next, e.frame, e.priority, e.key, e.hasCallback);
    EnqueueSupersedesByKey(capacity, s.items, item, s.writing, t);
  }

  lemma StepSupersedesByKey(capacity: nat, s: State, e: Input, t: nat)
    requires NotSuperseded(s, t)
    ensures NotSuperseded(Step(capacity, s, e), t)
  {
    if e.Send? {
      SendSupersedesByKey(capacity, s, e, t);
    } else {
      DiscardingSupersedesNothing(s.ledger, s.items, t);
    }
  }

  lemma {:induction false} StaysUnsuperseded(capacity: nat, inputs: seq<Input>, k: nat, t: nat)
    requires k <= |inputs| && NotSuperseded(After(capacity, inputs[..k]), t)
    ensures NotSuperseded(After(capacity, inputs), t)
  {
    if k == |inputs| {
      assert inputs[..k] == inputs;
    } else {
      var last := |inputs| - 1;
      assert inputs[..last][..k] == inputs[..k];
      StaysUnsuperseded(capacity, inputs[..last], k, t);
      StepSupersedesByKey(capacity, After(capacity, inputs[..last]), inputs[last], t);
    }
  }

  /** A brake goes before everything, and what is to be carried out before mere motion, which alone coalesces as such. */
  lemma CommandsRank(c: VehicleCommand, d: VehicleCommand)
    ensures c.brake && !d.brake ==> PriorityFor(c) > PriorityFor(d)
    ensures CarriedOut(c) && !CarriedOut(d) && !d.brake ==> PriorityFor(c) > PriorityFor(d)
    ensures KeyFor(c) == if c.brake then "brake" else if CarriedOut(c) then "" else "motion"
  {
  }

  /** In every run of the node no motion waits before a command that is to be carried out. */
  lemma MotionWaitsBehind(capacity: nat, inputs: seq<Input>, i: nat, j: nat)
    requires 0 < capacity && NodeRun(capacity, inputs)
    requires var items := After(capacity, inputs).items; 1 <= i < j < |items| && items[j].key == ""
    ensures After(capacity, inputs).items[i].key != "motion"
  {
    RunKeepsInv(capacity, inputs);
    RunIsDisciplined(capacity, inputs);
    var items := After(capacity, inputs).items;
    assert Before(items[i], items[j]);
  }

  /** Over every run of the node: a command to be carried out is never superseded, whatever is sent after it. */
  lemma CarriedOutIsNeverSuperseded(capacity: nat, inputs: seq<Input>, k: nat, c: VehicleCommand)
    requires 0 < capacity && NodeRun(capacity, inputs) && k < |inputs|
    requires CarriedOut(c) && inputs[k].Send? && inputs[k].key == KeyFor(c) && inputs[k].priority == PriorityFor(c)
    ensures
      var t, fates := After(capacity, inputs[..k]).next, After(capacity, inputs).ledger.fates;
      t in fates ==> fates[t].IsWritten? || fates[t].IsEvicted? || fates[t].IsDiscarded?
  {
    var s := After(capacity, inputs[..k]);
    TimelyPrefix(capacity, inputs, k);
    RunKeepsInv(capacity, inputs[..k]);
    assert inputs[..k + 1][..k] == inputs[..k];
    FreshIsNotSuperseded(capacity, s, inputs[k]);
    StaysUnsuperseded(capacity, inputs, k + 1, s.next);
  }

  lemma FreshIsNotSuperseded(capacity: nat, s: State, e: Input)
    requires SerialWriter.Inv(capacity, s) && e.Send? && e.key == ""
    ensures NotSuperseded(Step(capacity, s, e), s.next)
  {
    hide Enqueued;
    var item := Item(s.next, e.frame, e.priority, e.key, e.hasCallback);
    EnqueueSupersedesByKey(capacity, s.items, item, s.writing, s.next);
    assert forall i :: 0 <= i < |s.items| ==> s.items[i].ticket in s.ledger.accepted by {
      assert forall i :: 0 <= i < |s.items| ==> Open(s.items, s.items[i].ticket);
    }
    assert s.next !in s.ledger.fates;
  }
}
