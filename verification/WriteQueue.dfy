/**
 The bounded, stable priority queue of serial batches: continuous commands coalesce, a full queue evicts its
 least important waiting batch, and the batch being written is never touched.
 */
module WriteQueue {
  import opened Wrappers

  const CONTINUOUS: nat := 10
  const FINITE: nat := 20
  const SAFETY: nat := 30
  const CRITICAL: nat := 40

  /** A batch; `ticket` numbers the batches in the order they were handed over. */
  datatype Item = Item(ticket: nat, frame: seq<bv8>, priority: nat, key: string, hasCallback: bool)

  datatype Event = Written | Superseded | Evicted

  /** A callback that was called. */
  datatype Notice = Notice(ticket: nat, event: Event)

  function NoticeOf(item: Item, event: Event): seq<Notice> {
    if item.hasCallback then [Notice(item.ticket, event)] else []
  }

  function FirstMutable(items: seq<Item>, preserveFront: bool): nat {
    if preserveFront && items != [] then 1 else 0
  }

  function Without(items: seq<Item>, i: nat): seq<Item>
    requires i < |items|
  {
    items[..i] + items[i + 1..]
  }

  /** The first batch from `from` on with this key, or the end. */
  function KeyIndex(items: seq<Item>, from: nat, key: string): (r: nat)
    requires from <= |items|
    ensures from <= r <= |items|
    ensures r < |items| ==> items[r].key == key
    ensures forall i :: from <= i < r ==> items[i].key != key
    decreases |items| - from
  {
    if from == |items| || items[from].key == key then from else KeyIndex(items, from + 1, key)
  }

  predicate Evictable(item: Item, priority: nat) {
    item.priority < SAFETY && item.priority < priority
  }

  /** `d` is the oldest of the least important evictable batches. */
  ghost predicate IsVictim(items: seq<Item>, from: nat, priority: nat, d: nat) {
    && from <= d < |items| && Evictable(items[d], priority)
    && (forall i :: from <= i < |items| && Evictable(items[i], priority) ==> items[d].priority <= items[i].priority)
    && (forall i :: from <= i < d && Evictable(items[i], priority) ==> items[d].priority < items[i].priority)
  }

  ghost predicate NoVictim(items: seq<Item>, from: nat, priority: nat) {
    forall i :: from <= i < |items| ==> !Evictable(items[i], priority)
  }

  function Victim(items: seq<Item>, from: nat, priority: nat): (d: Option<nat>)
    requires from <= |items|
    ensures d.None? ==> NoVictim(items, from, priority)
    ensures d.Some? ==> IsVictim(items, from, priority, d.value)
    decreases |items| - from
  {
    if from == |items| then None
    else
      var d := Victim(items, from + 1, priority);
      if Evictable(items[from], priority) && (d.None? || items[from].priority <= items[d.value].priority)
      then Some(from) else d
  }

  /** Behind every batch from `from` on that is at least as important. */
  function InsertionIndex(items: seq<Item>, from: nat, priority: nat): (r: nat)
    requires from <= |items|
    ensures from <= r <= |items|
    ensures forall i :: from <= i < r ==> items[i].priority >= priority
    ensures r < |items| ==> items[r].priority < priority
    decreases |items| - from
  {
    if from == |items| || items[from].priority < priority then from else InsertionIndex(items, from + 1, priority)
  }

  datatype Outcome = Outcome(accepted: bool, items: seq<Item>, superseded: Option<Item>, evicted: Option<Item>)

  function NoticeIf(item: Option<Item>, event: Event): seq<Notice> {
    if item.Some? then NoticeOf(item.value, event) else []
  }

  function Notices(o: Outcome): seq<Notice> {
    NoticeIf(o.superseded, Superseded) + NoticeIf(o.evicted, Evicted)
  }

  function With(items: seq<Item>, at: nat, item: Item): seq<Item>
    requires at <= |items|
  {
    items[..at] + [item] + items[at..]
  }

  function Inserted(items: seq<Item>, item: Item, from: nat): seq<Item>
    requires from <= |items|
  {
    With(items, InsertionIndex(items, from, item.priority), item)
  }

  /** The queue without the waiting batch of the same key, if there is one. */
  function Coalesced(items: seq<Item>, key: string, from: nat): (seq<Item>, Option<Item>)
    requires from <= |items|
  {
    if key == "" then (items, None)
    else
      var i := KeyIndex(items, from, key);
      if i == |items| then (items, None) else (Without(items, i), Some(items[i]))
  }

  datatype Room = Room(found: bool, items: seq<Item>, evicted: Option<Item>)

  /** Room for one more batch of this priority, evicting one if the queue is full. */
  function MadeRoom(capacity: nat, items: seq<Item>, priority: nat, from: nat): Room
    requires from <= |items|
  {
    if |items| < capacity then Room(true, items, None)
    else
      var d := Victim(items, from, priority);
      if d.None? then Room(false, items, None)
      else Room(true, Without(items, d.value), Some(items[d.value]))
  }

  function Enqueued(capacity: nat, items: seq<Item>, item: Item, preserveFront: bool): Outcome {
    if item.frame == [] then Outcome(false, items, None, None)
    else
      var from := FirstMutable(items, preserveFront);
      var (coalesced, superseded) := Coalesced(items, item.key, from);
      var room := MadeRoom(capacity, coalesced, item.priority, from);
      Outcome(room.found, if room.found then Inserted(room.items, item, from) else coalesced, superseded, room.evicted)
  }

  // ---------------------------------------------------------------------------------------------
  // Properties of one enqueue
  // ---------------------------------------------------------------------------------------------

  /** `a` is sent before `b`: more important, or as important and older. */
  predicate Before(a: Item, b: Item) {
    a.priority > b.priority || (a.priority == b.priority && a.ticket < b.ticket)
  }

  /** The waiting batches are in sending order. */
  ghost predicate InOrder(items: seq<Item>) {
    forall i, j :: 1 <= i < j < |items| ==> Before(items[i], items[j])
  }

  /** A key waits at most once. */
  ghost predicate KeysOnce(items: seq<Item>) {
    forall i, j :: 1 <= i < j < |items| && items[i].key == items[j].key ==> items[i].key == ""
  }

  ghost predicate OlderThan(items: seq<Item>, ticket: nat) {
    forall i :: 0 <= i < |items| ==> items[i].ticket < ticket
  }

  /** A queue that is fit to receive the batch numbered `ticket`. */
  ghost predicate Tidy(items: seq<Item>, ticket: nat) {
    InOrder(items) && KeysOnce(items) && OlderThan(items, ticket)
  }

  ghost predicate KeyAbsent(items: seq<Item>, key: string) {
    key != "" ==> forall i :: 1 <= i < |items| ==> items[i].key != key
  }

  lemma RemovalIsTidy(items: seq<Item>, i: nat, ticket: nat)
    requires Tidy(items, ticket) && 1 <= i < |items|
    ensures Tidy(Without(items, i), ticket)
    ensures forall key :: KeyAbsent(items, key) ==> KeyAbsent(Without(items, i), key)
    ensures KeyAbsent(Without(items, i), items[i].key)
  {
    var after := Without(items, i);
    assert forall k :: 0 <= k < |after| ==> after[k] == items[if k < i then k else k + 1];
  }

  lemma RemovalTakesOne(items: seq<Item>, i: nat)
    requires i < |items|
    ensures multiset(items) == multiset(Without(items, i)) + multiset{items[i]}
  {
    assert items == items[..i] + [items[i]] + items[i + 1..];
  }

  lemma WithKeepsOrder(items: seq<Item>, at: nat, item: Item)
    requires InOrder(items) && OlderThan(items, item.ticket) && 1 <= at <= |items|
    requires forall i :: 1 <= i < at ==> items[i].priority >= item.priority
    requires at < |items| ==> items[at].priority < item.priority
    ensures InOrder(With(items, at, item))
  {
    var items' := With(items, at, item);
    forall i, j | 1 <= i < j < |items'| ensures Before(items'[i], items'[j]) {
      if j < at {
      } else if j == at {
        assert items'[i] == items[i];
      } else if i < at {
        assert items'[i] == items[i] && items'[j] == items[j - 1];
      } else {
        assert items'[j] == items[j - 1];
        assert j - 1 > at ==> Before(items[at], items[j - 1]);
        assert i > at ==> items'[i] == items[i - 1];
      }
    }
  }

  lemma WithKeepsKeys(items: seq<Item>, at: nat, item: Item)
    requires KeysOnce(items) && 1 <= at <= |items|
    requires item.key != "" ==> forall i :: 1 <= i < |items| ==> items[i].key != item.key
    ensures KeysOnce(With(items, at, item))
    ensures multiset(With(items, at, item)) == multiset(items) + multiset{item}
  {
    assert items == items[..at] + items[at..];
  }

  lemma InsertionKeeps(items: seq<Item>, item: Item)
    requires Tidy(items, item.ticket) && KeyAbsent(items, item.key) && items != []
    ensures var items' := Inserted(items, item, 1);
            && Tidy(items', item.ticket + 1) && items'[0] == items[0]
            && multiset(items') == multiset(items) + multiset{item} && |items'| == |items| + 1
  {
    var at := InsertionIndex(items, 1, item.priority);
    WithKeepsOrder(items, at, item);
    WithKeepsKeys(items, at, item);
    assert forall k :: 0 <= k < |items| + 1 ==>
             With(items, at, item)[k] == if k == at then item else items[if k < at then k else k - 1];
  }

  function MultisetOf(item: Option<Item>): multiset<Item> {
    if item.Some? then multiset{item.value} else multiset{}
  }

  lemma CoalesceKeeps(items: seq<Item>, item: Item)
    requires Tidy(items, item.ticket) && items != []
    ensures var (items1, superseded) := Coalesced(items, item.key, 1);
            && Tidy(items1, item.ticket) && KeyAbsent(items1, item.key)
            && items1 != [] && items1[0] == items[0]
            && multiset(items) == multiset(items1) + MultisetOf(superseded)
            && (if superseded.None? then items1 == items
                else |items1| == |items| - 1 && superseded.value.key == item.key != "")
  {
    var (items1, superseded) := Coalesced(items, item.key, 1);
    if superseded.Some? {
      RemovalIsTidy(items, KeyIndex(items, 1, item.key), item.ticket);
      RemovalTakesOne(items, KeyIndex(items, 1, item.key));
    }
  }

  lemma MakingRoomKeeps(capacity: nat, items: seq<Item>, item: Item)
    requires Tidy(items, item.ticket) && KeyAbsent(items, item.key) && items != [] && |items| <= capacity
    ensures var room := MadeRoom(capacity, items, item.priority, 1);
            && Tidy(room.items, item.ticket) && KeyAbsent(room.items, item.key)
            && room.items != [] && room.items[0] == items[0] && (room.found ==> |room.items| < capacity)
            && multiset(items) == multiset(room.items) + MultisetOf(room.evicted)
            && (room.evicted.None? ==> room.items == items)
            && (room.evicted.Some? ==>
                  && room.found && |items| == capacity
                  && room.evicted.value.priority < item.priority && room.evicted.value.priority < SAFETY)
  {
    var d := Victim(items, 1, item.priority);
    if |items| == capacity && d.Some? {
      RemovalIsTidy(items, d.value, item.ticket);
      RemovalTakesOne(items, d.value);
    }
  }

  /**
   Enqueueing behind a batch in flight: that batch stays where it is, the waiting ones stay in sending order with no
   key twice, nothing is lost without being reported, and what is evicted is less important than what it makes
   room for and never a safety batch.  A rejected batch changes nothing.
   */
  lemma EnqueueKeeps(capacity: nat, items: seq<Item>, item: Item)
    requires items != [] && |items| <= capacity && Tidy(items, item.ticket)
    ensures var o := Enqueued(capacity, items, item, true);
            && o.items != [] && o.items[0] == items[0] && |o.items| <= capacity
            && Tidy(o.items, item.ticket + 1)
            && (!o.accepted ==> o.items == items && o.superseded.None? && o.evicted.None?)
            && (o.accepted ==>
                  multiset(o.items) + MultisetOf(o.superseded) + MultisetOf(o.evicted)
                  == multiset(items) + multiset{item})
            && (o.superseded.Some? ==> o.superseded.value.key == item.key != "" && o.evicted.None?)
            && (o.evicted.Some? ==> o.evicted.value.priority < item.priority && o.evicted.value.priority < SAFETY)
  {
    if item.frame != [] {
      CoalesceKeeps(items, item);
      var coalesced := Coalesced(items, item.key, 1).0;
      MakingRoomKeeps(capacity, coalesced, item);
      InsertionKeeps(MadeRoom(capacity, coalesced, item.priority, 1).items, item);
    }
  }

  /** The queue accepts exactly when the key is already waiting, or there is room, or something may be evicted. */
  lemma AcceptedExactlyWhen(capacity: nat, items: seq<Item>, item: Item)
    requires items != [] && |items| <= capacity
    ensures Enqueued(capacity, items, item, true).accepted
            <==> && item.frame != []
                 && (|| |items| < capacity
                     || (item.key != "" && exists i :: 1 <= i < |items| && items[i].key == item.key)
                     || exists i :: 1 <= i < |items| && Evictable(items[i], item.priority))
  {
  }

  // ---------------------------------------------------------------------------------------------
  // The object
  // ---------------------------------------------------------------------------------------------

  class PriorityWriteQueue {
    const maxSize: nat
    var items: seq<Item>
    /** The callbacks called so far. */
    var notices: seq<Notice>

    constructor (maxSize: nat)
      ensures this.maxSize == Max(1, maxSize) && items == [] && notices == []
    {
      this.maxSize := Max(1, maxSize);
      items, notices := [], [];
    }

    method Call(item: Item, event: Event)
      modifies this`notices
      ensures notices == old(notices) + NoticeOf(item, event)
    {
      if item.hasCallback {
        notices := notices + [Notice(item.ticket, event)];
      }
    }

    method Coalesce(key: string, firstMutable: nat)
      requires firstMutable <= |items|
      modifies this
      ensures var (after, superseded) := Coalesced(old(items), key, firstMutable);
              && items == after
              && notices == old(notices) + NoticeIf(superseded, Superseded)
    {
      if key == "" {
        return;
      }
      var index := firstMutable;
      while index < |items|
        invariant firstMutable <= index <= |items| && items == old(items) && notices == old(notices)
        invariant KeyIndex(items, firstMutable, key) == KeyIndex(items, index, key)
      {
        if items[index].key == key {
          Call(items[index], Superseded);
          items := items[..index] + items[index + 1..];
          return;
        }
        index := index + 1;
      }
    }

    method FindVictim(priority: nat, firstMutable: nat) returns (discard: nat)
      requires firstMutable <= |items|
      ensures var d := Victim(items, firstMutable, priority);
              discard == if d.Some? then d.value else |items|
    {
      discard := |items|;
      var discardPriority := CRITICAL;
      var index := firstMutable;
      while index < |items|
        invariant firstMutable <= index <= |items|
        invariant discard == |items| ==> NoVictim(items[..index], firstMutable, priority)
        invariant discard != |items| ==>
                    discard < index && IsVictim(items[..index], firstMutable, priority, discard)
                    && discardPriority == items[discard].priority
      {
        if Evictable(items[index], priority) && (discard == |items| || items[index].priority < discardPriority) {
          discard, discardPriority := index, items[index].priority;
        }
        index := index + 1;
      }
      assert items[..|items|] == items;
    }

    method MakeRoom(priority: nat, firstMutable: nat) returns (found: bool)
      requires firstMutable <= |items|
      modifies this
      ensures var room := MadeRoom(maxSize, old(items), priority, firstMutable);
              found == room.found && items == room.items && notices == old(notices) + NoticeIf(room.evicted, Evicted)
    {
      if |items| < maxSize {
        return true;
      }
      var discard := FindVictim(priority, firstMutable);
      if discard == |items| {
        return false;
      }
      Call(items[discard], Evicted);
      items := items[..discard] + items[discard + 1..];
      return true;
    }

    /** Batches of the same priority keep their order: the new one goes behind them. */
    method Insert(item: Item, firstMutable: nat)
      requires firstMutable <= |items|
      modifies this`items
      ensures items == Inserted(old(items), item, firstMutable)
    {
      var position := firstMutable;
      while position < |items| && items[position].priority >= item.priority
        invariant firstMutable <= position <= |items|
        invariant InsertionIndex(items, firstMutable, item.priority) == InsertionIndex(items, position, item.priority)
      {
        position := position + 1;
      }
      items := items[..position] + [item] + items[position..];
    }

    method Enqueue(item: Item, preserveFront: bool) returns (accepted: bool)
      modifies this
      ensures var o := Enqueued(maxSize, old(items), item, preserveFront);
              accepted == o.accepted && items == o.items && notices == old(notices) + Notices(o)
    {
      if item.frame == [] {
        return false;
      }
      var firstMutable := if preserveFront && items != [] then 1 else 0;
      Coalesce(item.key, firstMutable);
      accepted := MakeRoom(item.priority, firstMutable);
      if accepted {
        Insert(item, firstMutable);
      }
    }

    method PopFront()
      modifies this`items
      ensures items == if old(items) == [] then [] else old(items)[1..]
    {
      if items != [] {
        items := items[1..];
      }
    }

    method Clear()
      modifies this`items
      ensures items == []
    {
      items := [];
    }
  }
}
