/**
 The writing side of the serial link: one asynchronous write at a time from the head of the queue, everything
 dropped when the transport fails.  `Ledger` records what became of every batch ever accepted.
 */
module SerialWriter {
  import opened Wrappers
  import opened WriteQueue

  datatype SendEvent = Queued | SentOut | SupersededBy(evicted: bool) | QueueRejected | TransportOffline

  datatype SendNotice = SendNotice(ticket: nat, event: SendEvent)

  datatype Fate = IsWritten | IsSuperseded | IsEvicted | IsDiscarded

  // ---------------------------------------------------------------------------------------------
  // The ledger
  // ---------------------------------------------------------------------------------------------

  datatype Ledger = Ledger(accepted: set<nat>, fates: map<nat, Fate>, withCallback: set<nat>, log: seq<SendNotice>)

  const EMPTY_LEDGER := Ledger({}, map[], {}, [])

  function EventOf(fate: Fate): Option<SendEvent> {
    match fate
    case IsWritten => Some(SentOut)
    case IsSuperseded => Some(SupersededBy(false))
    case IsEvicted => Some(SupersededBy(true))
    case IsDiscarded => None
  }

  predicate Terminal(event: SendEvent) { event.SentOut? || event.SupersededBy? }

  function Noted(log: seq<SendNotice>, item: Item, event: SendEvent): seq<SendNotice> {
    if item.hasCallback then log + [SendNotice(item.ticket, event)] else log
  }

  function LogSettled(log: seq<SendNotice>, item: Item, fate: Fate): seq<SendNotice> {
    if EventOf(fate).Some? then Noted(log, item, EventOf(fate).value) else log
  }

  function Settled(l: Ledger, item: Item, fate: Fate): Ledger {
    Ledger(l.accepted, l.fates[item.ticket := fate], l.withCallback, LogSettled(l.log, item, fate))
  }

  function SettledIf(l: Ledger, item: Option<Item>, fate: Fate): Ledger {
    if item.Some? then Settled(l, item.value, fate) else l
  }

  function AllSettled(l: Ledger, items: seq<Item>, fate: Fate): Ledger
    decreases |items|
  {
    if items == [] then l else AllSettled(Settled(l, items[0], fate), items[1..], fate)
  }

  function Accepted(l: Ledger, item: Item): Ledger {
    Ledger(l.accepted + {item.ticket}, l.fates,
           if item.hasCallback then l.withCallback + {item.ticket} else l.withCallback, Noted(l.log, item, Queued))
  }

  function Refused(l: Ledger, item: Item, event: SendEvent): Ledger {
    Ledger(l.accepted, l.fates, l.withCallback, Noted(l.log, item, event))
  }

  ghost predicate Open(items: seq<Item>, ticket: nat) {
    exists i :: 0 <= i < |items| && items[i].ticket == ticket
  }

  /** Every accepted batch is either still queued or has exactly one fate. */
  ghost predicate Conserved(l: Ledger, items: seq<Item>) {
    && (forall t: nat :: t in l.accepted <==> t in l.fates || Open(items, t))
    && (forall t: nat :: !(t in l.fates && Open(items, t)))
    && (forall i, j :: 0 <= i < j < |items| ==> items[i].ticket != items[j].ticket)
    && (forall i :: 0 <= i < |items| ==> (items[i].ticket in l.withCallback <==> items[i].hasCallback))
  }

  /** The callbacks called are the fates reached: each once, and none for a discarded batch. */
  ghost predicate Reported(l: Ledger) {
    && (forall i :: 0 <= i < |l.log| && Terminal(l.log[i].event) ==>
          && l.log[i].ticket in l.fates && l.log[i].ticket in l.withCallback
          && EventOf(l.fates[l.log[i].ticket]) == Some(l.log[i].event))
    && (forall t :: t in l.fates && t in l.withCallback && EventOf(l.fates[t]).Some? ==>
          SendNotice(t, EventOf(l.fates[t]).value) in l.log)
    && (forall i, j :: 0 <= i < j < |l.log| && Terminal(l.log[i].event) && Terminal(l.log[j].event) ==>
          l.log[i].ticket != l.log[j].ticket)
  }

  ghost predicate TicketsBelow(l: Ledger, next: nat) {
    && (forall t :: t in l.accepted || t in l.withCallback ==> t < next)
    && (forall i :: 0 <= i < |l.log| ==> l.log[i].ticket < next)
  }

  ghost predicate LedgerInv(l: Ledger, items: seq<Item>, next: nat) {
    Conserved(l, items) && Reported(l) && TicketsBelow(l, next)
  }

  lemma RemovalConserves(l: Ledger, items: seq<Item>, i: nat, fate: Fate)
    requires Conserved(l, items) && i < |items|
    ensures Conserved(Settled(l, items[i], fate), Without(items, i))
  {
    var item, after := items[i], Without(items, i);
    assert Open(items, item.ticket);
    assert forall k :: 0 <= k < |after| ==> after[k] == items[if k < i then k else k + 1];
    forall t: nat ensures Open(after, t) <==> Open(items, t) && t != item.ticket {
      if Open(items, t) && t != item.ticket {
        var k :| 0 <= k < |items| && items[k].ticket == t;
        assert after[if k < i then k else k - 1].ticket == t;
      }
    }
  }

  lemma SettlingKeeps(l: Ledger, items: seq<Item>, i: nat, fate: Fate, next: nat)
    requires LedgerInv(l, items, next) && i < |items|
    ensures LedgerInv(Settled(l, items[i], fate), Without(items, i), next)
  {
    assert Open(items, items[i].ticket);
    RemovalConserves(l, items, i, fate);
    SettlingReports(l, items[i], fate);
  }

  lemma SettlingReports(l: Ledger, item: Item, fate: Fate)
    requires Reported(l) && item.ticket !in l.fates && (item.ticket in l.withCallback <==> item.hasCallback)
    ensures Reported(Settled(l, item, fate))
  {
    var l' := Settled(l, item, fate);
    if item.hasCallback && EventOf(fate).Some? {
      assert l'.log[|l.log|] == SendNotice(item.ticket, EventOf(fate).value);
    }
    assert l.log <= l'.log;
  }

  lemma HeadAndTail(items: seq<Item>, t: nat)
    requires items != []
    ensures Open(items, t) <==> t == items[0].ticket || Open(items[1..], t)
  {
    if Open(items[1..], t) {
      var k :| 0 <= k < |items| - 1 && items[1..][k].ticket == t;
      assert items[k + 1].ticket == t;
    }
    if Open(items, t) && t != items[0].ticket {
      var k :| 0 <= k < |items| && items[k].ticket == t;
      assert items[1..][k - 1].ticket == t;
    }
  }

  ghost predicate Discarded(l: Ledger, items: seq<Item>, l': Ledger, t: nat) {
    && (t in l'.fates <==> t in l.fates || Open(items, t))
    && (t in l.fates ==> t in l'.fates && l'.fates[t] == l.fates[t])
    && (Open(items, t) ==> t in l'.fates && l'.fates[t] == IsDiscarded)
  }

  lemma {:induction false} DiscardingSettles(l: Ledger, items: seq<Item>, t: nat)
    requires Conserved(l, items)
    ensures Discarded(l, items, AllSettled(l, items, IsDiscarded), t)
    decreases |items|
  {
    if items != [] {
      HeadAndTail(items, t);
      assert Without(items, 0) == items[1..];
      RemovalConserves(l, items, 0, IsDiscarded);
      DiscardingSettles(Settled(l, items[0], IsDiscarded), items[1..], t);
      assert Open(items, items[0].ticket);
    }
  }

  lemma DiscardingHeadKeeps(l: Ledger, items: seq<Item>, next: nat)
    requires LedgerInv(l, items, next) && items != []
    ensures LedgerInv(Settled(l, items[0], IsDiscarded), items[1..], next)
  {
    SettlingKeeps(l, items, 0, IsDiscarded, next);
    assert Without(items, 0) == items[1..];
  }

  lemma {:induction false} DiscardingKeeps(l: Ledger, items: seq<Item>, next: nat)
    requires LedgerInv(l, items, next)
    ensures var l' := AllSettled(l, items, IsDiscarded);
            LedgerInv(l', [], next) && l'.accepted == l.accepted && l'.log == l.log
    decreases |items|
  {
    if items != [] {
      DiscardingHeadKeeps(l, items, next);
      DiscardingKeeps(Settled(l, items[0], IsDiscarded), items[1..], next);
    }
  }

  lemma InsertionOpens(items: seq<Item>, at: nat, item: Item)
    requires at <= |items| && !Open(items, item.ticket)
    requires forall i, j :: 0 <= i < j < |items| ==> items[i].ticket != items[j].ticket
    ensures forall t: nat :: Open(With(items, at, item), t) <==> Open(items, t) || t == item.ticket
    ensures var after := With(items, at, item);
            forall i, j :: 0 <= i < j < |after| ==> after[i].ticket != after[j].ticket
    ensures forall k :: 0 <= k < |items| + 1 ==>
              With(items, at, item)[k] == if k == at then item else items[if k < at then k else k - 1]
  {
    var after := With(items, at, item);
    assert forall k :: 0 <= k < |after| ==> after[k] == if k == at then item else items[if k < at then k else k - 1];
    forall t: nat ensures Open(after, t) <==> Open(items, t) || t == item.ticket {
      if Open(items, t) {
        var k :| 0 <= k < |items| && items[k].ticket == t;
        assert after[if k < at then k else k + 1].ticket == t;
      } else if t == item.ticket {
        assert after[at].ticket == t;
      }
    }
    forall i, j | 0 <= i < j < |after| ensures after[i].ticket != after[j].ticket {
      assert i != at ==> Open(items, after[i].ticket);
      assert j != at ==> Open(items, after[j].ticket);
    }
  }

  lemma AcceptingKeeps(l: Ledger, items: seq<Item>, at: nat, item: Item)
    requires LedgerInv(l, items, item.ticket) && at <= |items|
    ensures LedgerInv(Accepted(l, item), With(items, at, item), item.ticket + 1)
  {
    InsertionOpens(items, at, item);
    AcceptingConserves(l, items, With(items, at, item), at, item);
    assert item.ticket !in l.accepted;
    AcceptingReports(l, item);
  }

  lemma AcceptingReports(l: Ledger, item: Item)
    requires Reported(l) && item.ticket !in l.fates
    ensures Reported(Accepted(l, item))
  {
    assert l.log <= Accepted(l, item).log;
  }

  lemma AcceptingConserves(l: Ledger, items: seq<Item>, after: seq<Item>, at: nat, item: Item)
    requires Conserved(l, items) && TicketsBelow(l, item.ticket) && at <= |items|
    requires forall t: nat :: Open(after, t) <==> Open(items, t) || t == item.ticket
    requires forall i, j :: 0 <= i < j < |after| ==> after[i].ticket != after[j].ticket
    requires |after| == |items| + 1
    requires forall k :: 0 <= k < |after| ==>
               after[k] == if k == at then item else items[if k < at then k else k - 1]
    ensures Conserved(Accepted(l, item), after)
  {
    var l' := Accepted(l, item);
    assert item.ticket !in l.accepted && item.ticket !in l.withCallback;
    forall k | 0 <= k < |after| ensures after[k].ticket in l'.withCallback <==> after[k].hasCallback {
      if k != at {
        var j := if k < at then k else k - 1;
        assert Open(items, items[j].ticket) && items[j].ticket in l.accepted;
      }
    }
  }

  lemma RefusingKeeps(l: Ledger, items: seq<Item>, item: Item, event: SendEvent)
    requires LedgerInv(l, items, item.ticket) && !Terminal(event)
    ensures LedgerInv(Refused(l, item, event), items, item.ticket + 1)
  {
    assert l.log <= Refused(l, item, event).log;
  }

  // ---------------------------------------------------------------------------------------------
  // The writer
  // ---------------------------------------------------------------------------------------------

  /**
   `active` is the batch handed to the asynchronous write; `stale` counts writes cancelled by a transport error
   whose completion has not been delivered yet.
   */
  datatype State = State(
    items: seq<Item>, writing: bool, active: Option<Item>, connected: bool, stopping: bool, reconnectPending: bool,
    stale: nat, next: nat, ledger: Ledger)

  const INITIAL := State([], false, None, false, false, false, 0, 0, EMPTY_LEDGER)

  datatype Input =
    | Send(frame: seq<bv8>, priority: nat, key: string, hasCallback: bool)
    | Opened(ok: bool)
    | Completed(ok: bool)
    | StaleCompleted(ok: bool)
    | ReadFailed
    | StopRequested
    | StopRun

  function HeadOf(items: seq<Item>): Option<Item> { if items == [] then None else Some(items[0]) }

  /** Start writing the head of the queue, if there is one and the port is open. */
  function Begun(s: State): State {
    var active := if s.connected then HeadOf(s.items) else None;
    s.(writing := active.Some?, active := active)
  }

  function Failed(s: State): State {
    State([], false, None, false, s.stopping, s.reconnectPending || !s.stopping,
          if s.writing then s.stale + 1 else s.stale, s.next, AllSettled(s.ledger, s.items, IsDiscarded))
  }

  function OutcomeLedger(l: Ledger, o: Outcome, item: Item): Ledger {
    var l1 := SettledIf(SettledIf(l, o.superseded, IsSuperseded), o.evicted, IsEvicted);
    if o.accepted then Accepted(l1, item) else Refused(l1, item, QueueRejected)
  }

  /** The open transport takes the batch into its queue, or refuses it; at rest it begins to write. */
  function QueuedStep(capacity: nat, s: State, item: Item): State {
    var o := Enqueued(capacity, s.items, item, s.writing);
    var s1 := s.(items := o.items, ledger := OutcomeLedger(s.ledger, o, item));
    if o.accepted && !s.writing then Begun(s1) else s1
  }

  function SendStep(capacity: nat, s: State, e: Input): State
    requires e.Send?
  {
    var item := Item(s.next, e.frame, e.priority, e.key, e.hasCallback);
    var s1 := s.(next := s.next + 1);
    if !s.connected || e.frame == [] then s1.(ledger := Refused(s.ledger, item, TransportOffline))
    else QueuedStep(capacity, s1, item)
  }

  function HeadWritten(s: State): State {
    if s.items == [] then Begun(s.(writing := false))
    else Begun(s.(items := s.items[1..], ledger := Settled(s.ledger, s.items[0], IsWritten)))
  }

  /** The failed write is the one whose completion this is, so it leaves nothing outstanding. */
  function WriteFailed(s: State): State {
    if s.stopping then s else Failed(s.(writing := false))
  }

  function Step(capacity: nat, s: State, e: Input): State {
    match e
    case Send(_, _, _, _) => SendStep(capacity, s, e)
    case Opened(ok) =>
      if s.stopping || s.connected then s
      else if ok then s.(reconnectPending := false, connected := true)
      else Failed(s.(reconnectPending := false))
    case Completed(ok) => if !s.writing then s else if ok then HeadWritten(s) else WriteFailed(s)
    case StaleCompleted(ok) =>
      if s.stale == 0 then s
      else
        var s1 := s.(stale := s.stale - 1);
        if ok then HeadWritten(s1) else WriteFailed(s1)
    case ReadFailed => if s.stopping then s else Failed(s)
    case StopRequested => s.(stopping := true)
    case StopRun => Failed(s).(reconnectPending := false, stopping := true)
  }

  /** The completions of cancelled writes are delivered before the reconnect timer, a second later, reopens the port. */
  predicate Timely(s: State, e: Input) { e.Opened? && e.ok ==> s.stale == 0 }

  // ---------------------------------------------------------------------------------------------
  // Invariants
  // ---------------------------------------------------------------------------------------------

  /** One write is in progress exactly when the queue is not empty, and it is the write of its head. */
  ghost predicate WriterInv(capacity: nat, s: State) {
    && s.active == HeadOf(s.items) && s.writing == s.active.Some?
    && |s.items| <= capacity && Tidy(s.items, s.next)
    && (!s.connected ==> s.items == [])
    && (s.connected ==> s.stale == 0)
  }

  ghost predicate Inv(capacity: nat, s: State) {
    WriterInv(capacity, s) && LedgerInv(s.ledger, s.items, s.next)
  }

  lemma OutcomeKeeps(capacity: nat, items: seq<Item>, item: Item, l: Ledger)
    requires items != [] && |items| <= capacity && Tidy(items, item.ticket) && LedgerInv(l, items, item.ticket)
    ensures var o := Enqueued(capacity, items, item, true);
            LedgerInv(OutcomeLedger(l, o, item), o.items, item.ticket + 1)
  {
    var o := Enqueued(capacity, items, item, true);
    EnqueueKeeps(capacity, items, item);
    if item.frame == [] {
      RefusingKeeps(l, items, item, QueueRejected);
      return;
    }
    var (coalesced, superseded) := Coalesced(items, item.key, 1);
    var room := MadeRoom(capacity, coalesced, item.priority, 1);
    var l1 := SettledIf(l, superseded, IsSuperseded);
    if superseded.Some? {
      SettlingKeeps(l, items, KeyIndex(items, 1, item.key), IsSuperseded, item.ticket);
    }
    var l2 := SettledIf(l1, room.evicted, IsEvicted);
    if room.evicted.Some? {
      SettlingKeeps(l1, coalesced, Victim(coalesced, 1, item.priority).value, IsEvicted, item.ticket);
    }
    if room.found {
      AcceptingKeeps(l2, room.items, InsertionIndex(room.items, 1, item.priority), item);
    } else {
      RefusingKeeps(l2, coalesced, item, QueueRejected);
    }
  }

  lemma SendOffline(capacity: nat, s: State, e: Input)
    requires Inv(capacity, s) && e.Send? && (!s.connected || e.frame == [])
    ensures Inv(capacity, SendStep(capacity, s, e))
  {
    RefusingKeeps(s.ledger, s.items, Item(s.next, e.frame, e.priority, e.key, e.hasCallback), TransportOffline);
  }

  lemma SendWhileWriting(capacity: nat, s: State, e: Input)
    requires Inv(capacity, s) && e.Send? && s.connected && e.frame != [] && s.writing
    ensures Inv(capacity, SendStep(capacity, s, e))
  {
    var item := Item(s.next, e.frame, e.priority, e.key, e.hasCallback);
    EnqueueKeeps(capacity, s.items, item);
    OutcomeKeeps(capacity, s.items, item, s.ledger);
  }

  lemma SendAtRest(capacity: nat, s: State, e: Input)
    requires Inv(capacity, s) && e.Send? && s.connected && e.frame != [] && !s.writing && 0 < capacity
    ensures Inv(capacity, SendStep(capacity, s, e))
  {
    var item := Item(s.next, e.frame, e.priority, e.key, e.hasCallback);
    assert Enqueued(capacity, [], item, false) == Outcome(true, [item], None, None);
    AcceptingKeeps(s.ledger, [], 0, item);
    assert With([], 0, item) == [item];
  }

  lemma SendKeepsInv(capacity: nat, s: State, e: Input)
    requires Inv(capacity, s) && e.Send? && 0 < capacity
    ensures Inv(capacity, SendStep(capacity, s, e))
  {
    if !s.connected || e.frame == [] {
      SendOffline(capacity, s, e);
    } else if s.writing {
      SendWhileWriting(capacity, s, e);
    } else {
      SendAtRest(capacity, s, e);
    }
  }

  lemma FailedKeepsInv(capacity: nat, s: State)
    requires LedgerInv(s.ledger, s.items, s.next)
    ensures Inv(capacity, Failed(s))
  {
    DiscardingKeeps(s.ledger, s.items, s.next);
  }

  lemma TailIsTidy(items: seq<Item>, next: nat)
    requires Tidy(items, next) && items != []
    ensures Tidy(items[1..], next)
  {
    assert forall k :: 0 <= k < |items| - 1 ==> items[1..][k] == items[k + 1];
  }

  lemma WrittenKeepsLedger(l: Ledger, items: seq<Item>, next: nat)
    requires LedgerInv(l, items, next) && items != []
    ensures LedgerInv(Settled(l, items[0], IsWritten), items[1..], next)
  {
    SettlingKeeps(l, items, 0, IsWritten, next);
    assert Without(items, 0) == items[1..];
  }

  lemma WrittenKeepsInv(capacity: nat, s: State)
    requires Inv(capacity, s)
    ensures Inv(capacity, HeadWritten(s))
  {
    if s.items != [] {
      TailIsTidy(s.items, s.next);
      WrittenKeepsLedger(s.ledger, s.items, s.next);
    }
  }

  lemma StepKeepsInv(capacity: nat, s: State, e: Input)
    requires Inv(capacity, s) && Timely(s, e) && 0 < capacity
    ensures Inv(capacity, Step(capacity, s, e))
  {
    match e {
      case Send(_, _, _, _) => SendKeepsInv(capacity, s, e);
      case Opened(_) => FailedKeepsInv(capacity, s.(reconnectPending := false));
      case Completed(ok) =>
        WrittenKeepsInv(capacity, s);
        FailedKeepsInv(capacity, s.(writing := false));
      case StaleCompleted(ok) =>
        if s.stale != 0 {
          var s1 := s.(stale := s.stale - 1);
          WrittenKeepsInv(capacity, s1);
          FailedKeepsInv(capacity, s1.(writing := false));
        }
      case ReadFailed => FailedKeepsInv(capacity, s);
      case StopRequested =>
      case StopRun => FailedKeepsInv(capacity, s);
    }
  }

  /** Nothing but its own completion or a transport reset ends the write in progress or touches its batch. */
  lemma HeadIsPinned(capacity: nat, s: State, e: Input)
    requires Inv(capacity, s) && Timely(s, e) && 0 < capacity && s.writing && !e.Completed?
    ensures var s' := Step(capacity, s, e);
            if s'.connected then s'.writing && s'.active == s.active && s'.items[0] == s.items[0]
            else s'.items == [] && !s'.writing
  {
    StepKeepsInv(capacity, s, e);
    if e.Send? && e.frame != [] {
      EnqueueKeeps(capacity, s.items, Item(s.next, e.frame, e.priority, e.key, e.hasCallback));
    }
  }

  /** A refused batch leaves the queue, the write in progress and every other batch's record alone. */
  lemma RefusalChangesNothing(capacity: nat, s: State, e: Input)
    requires Inv(capacity, s) && 0 < capacity && e.Send? && s.next !in SendStep(capacity, s, e).ledger.accepted
    ensures var s' := SendStep(capacity, s, e);
            && s' == s.(next := s.next + 1, ledger := s.ledger.(log := s'.ledger.log))
            && (s'.ledger.log == s.ledger.log
                || s'.ledger.log == s.ledger.log + [SendNotice(s.next, if s.connected && e.frame != [] then QueueRejected
                                                                       else TransportOffline)])
  {
    if s.connected && s.writing {
      EnqueueKeeps(capacity, s.items, Item(s.next, e.frame, e.priority, e.key, e.hasCallback));
    }
  }

  // ---------------------------------------------------------------------------------------------
  // Whole runs
  // ---------------------------------------------------------------------------------------------

  function After(capacity: nat, inputs: seq<Input>): State {
    if inputs == [] then INITIAL
    else var last := |inputs| - 1; Step(capacity, After(capacity, inputs[..last]), inputs[last])
  }

  ghost predicate TimelyRun(capacity: nat, inputs: seq<Input>) {
    forall i :: 0 <= i < |inputs| ==> Timely(After(capacity, inputs[..i]), inputs[i])
  }

  lemma TimelyPrefix(capacity: nat, inputs: seq<Input>, n: nat)
    requires TimelyRun(capacity, inputs) && n <= |inputs|
    ensures TimelyRun(capacity, inputs[..n])
  {
    forall i | 0 <= i < n ensures Timely(After(capacity, inputs[..n][..i]), inputs[..n][i]) {
      assert inputs[..n][..i] == inputs[..i];
    }
  }

  /**
   Over every run: a write is in progress exactly when the queue is not empty, what waits is in sending order and
   within capacity, and every batch ever accepted is either queued or has ended in exactly one way that was reported
   exactly once.
   */
  lemma {:induction false} RunKeepsInv(capacity: nat, inputs: seq<Input>)
    requires 0 < capacity && TimelyRun(capacity, inputs)
    ensures Inv(capacity, After(capacity, inputs))
  {
    if inputs != [] {
      var last := |inputs| - 1;
      TimelyPrefix(capacity, inputs, last);
      RunKeepsInv(capacity, inputs[..last]);
      StepKeepsInv(capacity, After(capacity, inputs[..last]), inputs[last]);
    }
  }

  // ---------------------------------------------------------------------------------------------
  // The object
  // ---------------------------------------------------------------------------------------------

  function Relayed(notice: Notice): SendNotice {
    SendNotice(notice.ticket,
               match notice.event
               case Written => SentOut
               case Superseded => SupersededBy(false)
               case Evicted => SupersededBy(true))
  }

  function AllRelayed(log: seq<SendNotice>, notices: seq<Notice>): seq<SendNotice>
    decreases |notices|
  {
    if notices == [] then log else AllRelayed(log + [Relayed(notices[0])], notices[1..])
  }

  lemma RelayingOne(l: Ledger, item: Option<Item>, event: Event, fate: Fate)
    requires (event.Superseded? && fate.IsSuperseded?) || (event.Evicted? && fate.IsEvicted?)
    ensures AllRelayed(l.log, NoticeIf(item, event)) == SettledIf(l, item, fate).log
  {
    var notices := NoticeIf(item, event);
    if notices != [] {
      assert notices[1..] == [];
    }
  }

  lemma {:induction false} RelayingBoth(log: seq<SendNotice>, a: seq<Notice>, b: seq<Notice>)
    ensures AllRelayed(log, a + b) == AllRelayed(AllRelayed(log, a), b)
    decreases |a|
  {
    if a == [] {
      assert a + b == b;
    } else {
      assert (a + b)[1..] == a[1..] + b;
      RelayingBoth(log + [Relayed(a[0])], a[1..], b);
    }
  }

  /** Passing on what the queue reported is what the ledger says was reported. */
  lemma RelayingSettles(l: Ledger, o: Outcome)
    ensures AllRelayed(l.log, Notices(o))
            == SettledIf(SettledIf(l, o.superseded, IsSuperseded), o.evicted, IsEvicted).log
  {
    RelayingOne(l, o.superseded, Superseded, IsSuperseded);
    RelayingOne(SettledIf(l, o.superseded, IsSuperseded), o.evicted, Evicted, IsEvicted);
    RelayingBoth(l.log, NoticeIf(o.superseded, Superseded), NoticeIf(o.evicted, Evicted));
  }

  class LowerMachineSerial {
    const queue: PriorityWriteQueue
    var writeInProgress: bool
    /** The batch handed to the asynchronous write. */
    var active: Option<Item>
    var connected: bool
    var stopping: bool
    var reconnectPending: bool
    var staleWrites: nat
    var nextTicket: nat
    /** The callbacks called so far. */
    var log: seq<SendNotice>
    ghost var accepted: set<nat>
    ghost var fates: map<nat, Fate>
    ghost var withCallback: set<nat>

    constructor (capacity: nat)
      ensures fresh(queue) && queue.maxSize == Max(1, capacity) && View() == INITIAL
    {
      queue := new PriorityWriteQueue(capacity);
      writeInProgress, active, connected, stopping, reconnectPending := false, None, false, false, false;
      staleWrites, nextTicket, log := 0, 0, [];
      accepted, fates, withCallback := {}, map[], {};
    }

    ghost function LedgerView(): Ledger
      reads this
    {
      Ledger(accepted, fates, withCallback, log)
    }

    ghost function View(): State
      reads this, queue
    {
      State(queue.items, writeInProgress, active, connected, stopping, reconnectPending, staleWrites, nextTicket,
            LedgerView())
    }

    ghost method Enter(l: Ledger)
      modifies this`accepted, this`fates, this`withCallback
      ensures LedgerView() == l.(log := log)
    {
      accepted, fates, withCallback := l.accepted, l.fates, l.withCallback;
    }

    method Report(item: Item, event: SendEvent)
      modifies this`log
      ensures log == Noted(old(log), item, event)
    {
      if item.hasCallback {
        log := log + [SendNotice(item.ticket, event)];
      }
    }

    method Relay(notices: seq<Notice>)
      modifies this`log
      ensures log == AllRelayed(old(log), notices)
    {
      var i := 0;
      while i < |notices|
        invariant i <= |notices| && AllRelayed(log, notices[i..]) == AllRelayed(old(log), notices)
      {
        assert notices[i..][1..] == notices[i + 1..];
        log := log + [Relayed(notices[i])];
        i := i + 1;
      }
    }

    method BeginWrite()
      modifies this`writeInProgress, this`active
      ensures View() == Begun(old(View()))
    {
      if queue.items == [] || !connected {
        writeInProgress, active := false, None;
        return;
      }
      writeInProgress := true;
      active := Some(queue.items[0]);
    }

    /** Offer the batch to the queue and pass on what it reports about others. */
    method Offer(item: Item) returns (queued: bool)
      modifies this`log, queue
      ensures var o := Enqueued(queue.maxSize, old(queue.items), item, writeInProgress);
              && queued == o.accepted && queue.items == o.items
              && log == SettledIf(SettledIf(old(LedgerView()), o.superseded, IsSuperseded), o.evicted, IsEvicted).log
    {
      var already := |queue.notices|;
      queued := queue.Enqueue(item, writeInProgress);
      ghost var o := Enqueued(queue.maxSize, old(queue.items), item, writeInProgress);
      assert queue.notices[already..] == Notices(o);
      Relay(queue.notices[already..]);
      RelayingSettles(old(LedgerView()), o);
    }

    method EnqueueWrite(frame: seq<bv8>, priority: nat, key: string, hasCallback: bool)
      modifies this, queue
      ensures View() == SendStep(queue.maxSize, old(View()), Send(frame, priority, key, hasCallback))
    {
      var item := Item(nextTicket, frame, priority, key, hasCallback);
      nextTicket := nextTicket + 1;
      if !connected || frame == [] {
        Report(item, TransportOffline);
        return;
      }
      TakeItem(item);
    }

    method TakeItem(item: Item)
      modifies this, queue
      ensures View() == QueuedStep(queue.maxSize, old(View()), item)
    {
      var queued := QueueItem(item);
      if queued && !writeInProgress {
        BeginWrite();
      }
    }

    /** Offer the batch and enter what became of it and of the others. */
    method QueueItem(item: Item) returns (queued: bool)
      modifies this`log, this`accepted, this`fates, this`withCallback, queue
      ensures var o := Enqueued(queue.maxSize, old(queue.items), item, writeInProgress);
              queued == o.accepted && queue.items == o.items && LedgerView() == OutcomeLedger(old(LedgerView()), o, item)
    {
      queued := Offer(item);
      Enter(OutcomeLedger(old(LedgerView()), Enqueued(queue.maxSize, old(queue.items), item, writeInProgress), item));
      if queued {
        Report(item, Queued);
      } else {
        Report(item, QueueRejected);
      }
    }

    method HandleTransportError()
      modifies this, queue
      ensures View() == Failed(old(View()))
    {
      DiscardingIsSilent(LedgerView(), queue.items);
      Enter(AllSettled(LedgerView(), queue.items, IsDiscarded));
      queue.Clear();
      if writeInProgress {
        staleWrites := staleWrites + 1;
      }
      writeInProgress, active, connected := false, None, false;
      if !stopping && !reconnectPending {
        reconnectPending := true;
      }
    }

    /** What a write completion does: report and drop the head and go on, or fail the transport. */
    method FinishWrite(ok: bool)
      modifies this, queue
      ensures View() == if ok then HeadWritten(old(View())) else WriteFailed(old(View()))
    {
      if !ok {
        if !stopping {
          writeInProgress := false;
          HandleTransportError();
        }
        return;
      }
      if queue.items != [] {
        var head := queue.items[0];
        Report(head, SentOut);
        Enter(Settled(LedgerView(), head, IsWritten));
        queue.PopFront();
      }
      writeInProgress := false;
      BeginWrite();
    }

    method OnWrite(ok: bool)
      modifies this, queue
      ensures View() == Step(queue.maxSize, old(View()), Completed(ok))
    {
      if writeInProgress {
        FinishWrite(ok);
      }
    }

    method OnCancelledWrite(ok: bool)
      modifies this, queue
      ensures View() == Step(queue.maxSize, old(View()), StaleCompleted(ok))
    {
      if staleWrites != 0 {
        staleWrites := staleWrites - 1;
        FinishWrite(ok);
      }
    }

    method OpenSerial(ok: bool)
      modifies this, queue
      ensures View() == Step(queue.maxSize, old(View()), Opened(ok))
    {
      if stopping || connected {
        return;
      }
      reconnectPending := false;
      if !ok {
        HandleTransportError();
        return;
      }
      connected := true;
    }

    method OnReadError()
      modifies this, queue
      ensures View() == Step(queue.maxSize, old(View()), ReadFailed)
    {
      if !stopping {
        HandleTransportError();
      }
    }

    method RunStop()
      modifies this, queue
      ensures View() == Step(queue.maxSize, old(View()), StopRun)
    {
      stopping := true;
      HandleTransportError();
      reconnectPending := false;
    }
  }

  lemma {:induction false} DiscardingIsSilent(l: Ledger, items: seq<Item>)
    ensures AllSettled(l, items, IsDiscarded).log == l.log
    decreases |items|
  {
    if items != [] {
      DiscardingIsSilent(Settled(l, items[0], IsDiscarded), items[1..]);
    }
  }

  // ---------------------------------------------------------------------------------------------
  // What each input does
  // ---------------------------------------------------------------------------------------------

  /** The write of the head is reported as completed, or as failed. */
  predicate Writes(s: State, e: Input) { e.Completed? && e.ok && s.writing }

  /** The transport breaks: a write or a read fails, the port cannot be opened, or the link is shut down. */
  predicate Breaks(s: State, e: Input) {
    || (e.Completed? && !e.ok && s.writing && !s.stopping)
    || (e.StaleCompleted? && !e.ok && s.stale > 0 && !s.stopping)
    || (e.ReadFailed? && !s.stopping)
    || (e.Opened? && !e.ok && !s.stopping && !s.connected)
    || e.StopRun?
  }

  /** The port is opened. */
  predicate Connects(s: State, e: Input) { e.Opened? && e.ok && !s.stopping && !s.connected }

  /**
   The link is open from its opening until it breaks; a break that is no shutdown asks for another attempt; a write it
   cuts off stays to be reported; and a shutdown is for good.
   */
  lemma LinkByInput(capacity: nat, s: State, e: Input)
    requires Inv(capacity, s) && Timely(s, e) && 0 < capacity
    ensures
      var s' := Step(capacity, s, e);
      && (s'.connected <==> !Breaks(s, e) && (s.connected || Connects(s, e)))
      && (Breaks(s, e) ==> s'.items == [] && !s'.writing)
      && (s'.stopping <==> s.stopping || e.StopRequested? || e.StopRun?)
      && (s'.reconnectPending <==>
            if e.StopRun? then false else Breaks(s, e) || (s.reconnectPending && !Connects(s, e)))
      && s'.stale == s.stale
                     + (if Breaks(s, e) && !e.Completed? && s.writing then 1 else 0)
                     - (if e.StaleCompleted? && s.stale > 0 then 1 else 0)
  {
  }

  /**
   A batch is written exactly when the write of it, at the head, is reported as completed; it is discarded exactly when
   the transport breaks while it is queued.
   */
  lemma FatesByInput(capacity: nat, s: State, e: Input, t: nat)
    requires Inv(capacity, s) && Timely(s, e) && 0 < capacity && t !in s.ledger.fates && !e.Send?
    ensures
      var fates := Step(capacity, s, e).ledger.fates;
      && (t in fates && fates[t] == IsWritten <==> Writes(s, e) && s.items[0].ticket == t)
      && (t in fates && fates[t] == IsDiscarded <==> Breaks(s, e) && Open(s.items, t))
  {
    DiscardingSettles(s.ledger, s.items, t);
    assert s.writing ==> Open(s.items, s.items[0].ticket);
  }
}
