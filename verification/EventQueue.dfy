/** The bounded queue behind one subscription: a ring buffer that, when full, coalesces motion,
    drops, or turns its newest slot into a gap marker. */
module EventQueue {
  import opened Wrappers
  import opened Events

  datatype Policy = Coalesce | NeverDrop

  /** The abstract queue: its items in delivery order, and its counters. */
  datatype Queue = Queue(
    items: seq<Item>,
    capacity: nat,
    policy: Policy,
    overflow: nat,
    needsResync: bool,
    lastDelivered: nat)

  function Last(items: seq<Item>): Item
    requires items != []
  {
    items[|items| - 1]
  }

  function Front(items: seq<Item>): seq<Item>
    requires items != []
  {
    items[..|items| - 1]
  }

  /** Only a motion event may overwrite a queued motion event. */
  predicate Coalesces(q: Queue, e: Event)
    requires q.items != []
  {
    && q.policy == Coalesce
    && e.kind == MouseMoveKind
    && Last(q.items).Ev?
    && Last(q.items).event.kind == MouseMoveKind
  }

  predicate MarksGap(q: Queue, e: Event) {
    q.policy == NeverDrop || NeverDropClass(e.kind)
  }

  /** The queue after publishing `e`, and whether the subscriber is notified. */
  function Enqueued(q: Queue, e: Event): (Queue, bool)
    requires |q.items| <= q.capacity
  {
    if q.capacity == 0 then (q.(overflow := q.overflow + 1), false)
    else if |q.items| < q.capacity then (q.(items := q.items + [Ev(e)]), true)
    else if Coalesces(q, e) then (q.(items := Front(q.items) + [Ev(e)]), true)
    else if MarksGap(q, e) then
      var marked := if Last(q.items).Gap? then q.items else Front(q.items) + [Gap(q.lastDelivered)];
      (q.(items := marked, overflow := q.overflow + 1, needsResync := true), true)
    else (q.(overflow := q.overflow + 1), false)
  }

  function Popped(q: Queue): (Queue, Option<Item>) {
    if q.items == [] then (q, None)
    else
      var item := q.items[0];
      (q.(items := q.items[1..],
          lastDelivered := if item.Ev? then item.event.sequence else q.lastDelivered),
       Some(item))
  }

  // ---- The ring buffer ----

  /** The `size` slots from `head` on, wrapping round. */
  function Ring(slots: seq<Item>, head: nat, size: nat): seq<Item>
    requires size <= |slots| && head <= |slots|
  {
    if head + size <= |slots| then slots[head..head + size]
    else slots[head..] + slots[..head + size - |slots|]
  }

  /** Less than twice round, the remainder subtracts at most one turn. */
  lemma OneTurn(a: nat, n: nat)
    requires a < 2 * n
    ensures a % n == if a < n then a else a - n
  {
    var q := a / n;
    assert a == n * q + a % n;
    if 2 <= q { TwoTurns(n, q); }
  }

  lemma TwoTurns(n: nat, q: nat)
    requires 2 <= q
    ensures 2 * n <= n * q
  {
    assert n * (q - 2) >= 0;
  }

  /** The k-th slot from `head`. */
  function Slot(capacity: nat, head: nat, k: nat): (i: nat)
    requires head < capacity && k < capacity
    ensures i == if head + k < capacity then head + k else head + k - capacity
  {
    OneTurn(head + k, capacity);
    (head + k) % capacity
  }

  lemma RingAt(slots: seq<Item>, head: nat, size: nat, k: nat)
    requires k < size <= |slots| && head < |slots|
    ensures |Ring(slots, head, size)| == size
    ensures Ring(slots, head, size)[k] == slots[Slot(|slots|, head, k)]
  {
  }

  lemma RingPush(slots: seq<Item>, head: nat, size: nat, item: Item)
    requires size < |slots| && head < |slots|
    ensures Ring(slots[Slot(|slots|, head, size) := item], head, size + 1) == Ring(slots, head, size) + [item]
  {
  }

  lemma RingReplaceBack(slots: seq<Item>, head: nat, size: nat, item: Item)
    requires 0 < size <= |slots| && head < |slots|
    ensures Ring(slots[Slot(|slots|, head, size - 1) := item], head, size) == Front(Ring(slots, head, size)) + [item]
  {
  }

  function NextIndex(capacity: nat, i: nat): (next: nat)
    requires i < capacity
    ensures next == if i + 1 < capacity then i + 1 else 0
  {
    OneTurn(i + 1, capacity);
    (i + 1) % capacity
  }

  lemma RingPop(slots: seq<Item>, head: nat, size: nat, filler: Item)
    requires 0 < size <= |slots| && head < |slots|
    ensures Ring(slots, head, size) == [slots[head]] + Ring(slots[head := filler], NextIndex(|slots|, head), size - 1)
  {
  }

  class SubscriptionQueue {
    const buffer: array<Item>
    const policy: Policy
    var head: nat
    var size: nat
    var overflow: nat
    var needsResync: bool
    var lastDelivered: nat

    ghost predicate Valid()
      reads this
    {
      size <= buffer.Length && (head < buffer.Length || head == buffer.Length == 0)
    }

    ghost function Abstract(): Queue
      requires Valid()
      reads this, buffer
    {
      Queue(Ring(buffer[..], head, size), buffer.Length, policy, overflow, needsResync, lastDelivered)
    }

    constructor (capacity: nat, policy: Policy)
      ensures Valid() && fresh(buffer)
      ensures Abstract() == Queue([], capacity, policy, 0, false, 0)
    {
      buffer := new Item[capacity](_ => Gap(0));
      this.policy := policy;
      head, size, overflow, needsResync, lastDelivered := 0, 0, 0, false, 0;
    }

    method PushBack(item: Item)
      requires Valid() && size < buffer.Length
      modifies this`size, buffer
      ensures Valid() && size == old(size) + 1
      ensures Ring(buffer[..], head, size) == old(Ring(buffer[..], head, size)) + [item]
    {
      var tail := Slot(buffer.Length, head, size);
      RingPush(buffer[..], head, size, item);
      buffer[tail] := item;
      assert buffer[..] == old(buffer[..])[tail := item];
      size := size + 1;
    }

    method ReplaceBack(item: Item)
      requires Valid() && 0 < size
      modifies buffer
      ensures Ring(buffer[..], head, size) == Front(old(Ring(buffer[..], head, size))) + [item]
    {
      var back := Slot(buffer.Length, head, size - 1);
      RingReplaceBack(buffer[..], head, size, item);
      buffer[back] := item;
      assert buffer[..] == old(buffer[..])[back := item];
    }

    method Enqueue(e: Event) returns (notify: bool)
      requires Valid()
      modifies this, buffer
      ensures Valid()
      ensures (Abstract(), notify) == Enqueued(old(Abstract()), e)
      ensures Outcome(old(Abstract()), old(lastDelivered), e, Abstract(), notify)
    {
      EnqueuedOutcome(Abstract(), e);
      hide Outcome;
      if buffer.Length == 0 {
        overflow := overflow + 1;
        return false;
      }
      if size < buffer.Length {
        PushBack(Ev(e));
        return true;
      }
      notify := EnqueueFull(e);
    }

    /** The newest slot of a full queue decides what a publication does to it. */
    method EnqueueFull(e: Event) returns (notify: bool)
      requires Valid() && 0 < size == buffer.Length
      modifies this`overflow, this`needsResync, buffer
      ensures Valid()
      ensures (Abstract(), notify) == Enqueued(old(Abstract()), e)
    {
      RingAt(buffer[..], head, size, size - 1);
      var back := buffer[Slot(buffer.Length, head, size - 1)];
      hide Ring, Slot;
      if policy == Coalesce && e.kind == MouseMoveKind && back.Ev? && back.event.kind == MouseMoveKind {
        ReplaceBack(Ev(e));
        return true;
      }
      if policy == NeverDrop || NeverDropClass(e.kind) {
        overflow, needsResync := overflow + 1, true;
        if back.Ev? {
          ReplaceBack(Gap(lastDelivered));
        }
        return true;
      }
      overflow := overflow + 1;
      return false;
    }

    method PopFront() returns (front: Item)
      requires Valid() && 0 < size
      modifies this`head, this`size, buffer
      ensures Valid() && size == old(size) - 1
      ensures old(Ring(buffer[..], head, size)) == [front] + Ring(buffer[..], head, size)
    {
      hide Ring;
      front := buffer[head];
      RingPop(buffer[..], head, size, Gap(0));
      buffer[head] := Gap(0);
      assert buffer[..] == old(buffer[..])[head := Gap(0)];
      head, size := NextIndex(buffer.Length, head), size - 1;
    }

    method TryPopItem() returns (item: Option<Item>)
      requires Valid()
      modifies this, buffer
      ensures Valid()
      ensures (Abstract(), item) == Popped(old(Abstract()))
    {
      if size == 0 {
        return None;
      }
      hide Ring;
      var front := PopFront();
      if front.Ev? {
        lastDelivered := front.event.sequence;
      }
      return Some(front);
    }
  }

  // ---- What a subscriber can rely on ----

  datatype Op = Publish(event: Event) | Pop

  /** A queue together with everything ever published to it and handed out by it. */
  datatype History = History(q: Queue, published: seq<Event>, delivered: seq<Item>)

  function Initial(capacity: nat, policy: Policy): History {
    History(Queue([], capacity, policy, 0, false, 0), [], [])
  }

  predicate Bounded(h: History) {
    |h.q.items| <= h.q.capacity
  }

  function Step(h: History, op: Op): (next: History)
    requires Bounded(h)
    ensures Bounded(next)
  {
    match op
    case Publish(e) => h.(q := Enqueued(h.q, e).0, published := h.published + [e])
    case Pop =>
      var (q, item) := Popped(h.q);
      h.(q := q, delivered := if item.Some? then h.delivered + [item.value] else h.delivered)
  }

  function Run(capacity: nat, policy: Policy, ops: seq<Op>): (h: History)
    ensures Bounded(h)
  {
    if ops == [] then Initial(capacity, policy)
    else Step(Run(capacity, policy, ops[..|ops| - 1]), ops[|ops| - 1])
  }

  /** Events a queue under this policy may lose without leaving a gap marker. */
  predicate Droppable(policy: Policy, e: Event) {
    policy == Coalesce && !NeverDropClass(e.kind)
  }

  ghost predicate AllDroppable(policy: Policy, events: seq<Event>) {
    forall k :: 0 <= k < |events| ==> Droppable(policy, events[k])
  }

  /** The number is that of one of these items' events. */
  ghost predicate HandedOut(items: seq<Item>, sequence: nat) {
    exists e :: Ev(e) in items && e.sequence == sequence
  }

  /** `items` tells the whole story of `events`, in order: an event item is that event, followed
      at most by droppable ones; a gap stands for at least two lost events, all of them numbered
      after the sequence number it names, which is an earlier item's or, before any, zero. */
  ghost predicate Accounts(policy: Policy, items: seq<Item>, events: seq<Event>)
    decreases |items|
  {
    if items == [] then AllDroppable(policy, events)
    else match Last(items)
      case Ev(e) =>
        exists k :: 0 <= k < |events| && Accounts(policy, Front(items), events[..k]) && events[k] == e
                    && AllDroppable(policy, events[k + 1..])
      case Gap(n) =>
        && (n == 0 || HandedOut(Front(items), n))
        && exists k :: 0 <= k <= |events| - 2 && Accounts(policy, Front(items), events[..k])
                       && forall j :: k <= j < |events| ==> n < events[j].sequence
  }

  /** The bus numbers events in publication order, from one. */
  ghost predicate Numbered(events: seq<Event>) {
    && (forall k :: 0 <= k < |events| ==> 0 < events[k].sequence)
    && (forall j, k :: 0 <= j < k < |events| ==> events[j].sequence < events[k].sequence)
  }

  /** How many of the events the items before the last one stand for. */
  lemma CutOf(policy: Policy, items: seq<Item>, events: seq<Event>) returns (k: nat)
    requires items != [] && Accounts(policy, items, events)
    ensures k <= |events| && Accounts(policy, Front(items), events[..k])
    ensures Last(items).Ev? ==> k < |events| && events[k] == Last(items).event && AllDroppable(policy, events[k + 1..])
    ensures Last(items).Gap? ==>
      k <= |events| - 2 && forall j :: k <= j < |events| ==> Last(items).lastDelivered < events[j].sequence
  {
    if Last(items).Ev? {
      k :| 0 <= k < |events| && Accounts(policy, Front(items), events[..k]) && events[k] == Last(items).event
           && AllDroppable(policy, events[k + 1..]);
    } else {
      k :| 0 <= k <= |events| - 2 && Accounts(policy, Front(items), events[..k])
           && forall j :: k <= j < |events| ==> Last(items).lastDelivered < events[j].sequence;
    }
  }

  lemma {:induction false} AccountedEventsWerePublished(policy: Policy, items: seq<Item>, events: seq<Event>, e: Event)
    requires Accounts(policy, items, events) && Ev(e) in items
    ensures e in events
    decreases |items|
  {
    var k := CutOf(policy, items, events);
    if Last(items) != Ev(e) {
      assert items == Front(items) + [Last(items)];
      AccountedEventsWerePublished(policy, Front(items), events[..k], e);
    }
  }

  /** Appending the published event itself. */
  lemma AccountsPush(policy: Policy, items: seq<Item>, events: seq<Event>, e: Event)
    requires Accounts(policy, items, events)
    ensures Accounts(policy, items + [Ev(e)], events + [e])
  {
    var events', k := events + [e], |events|;
    assert Front(items + [Ev(e)]) == items && events'[..k] == events;
  }

  /** Losing the newest events: droppable ones without a mark, any behind a gap marker. */
  lemma AccountsLoss(policy: Policy, items: seq<Item>, events: seq<Event>, lost: seq<Event>)
    requires Accounts(policy, items, events) && Numbered(events + lost)
    requires (items != [] && Last(items).Gap?) || AllDroppable(policy, lost)
    ensures Accounts(policy, items, events + lost)
  {
    if items != [] {
      var events' := events + lost;
      var k := CutOf(policy, items, events);
      assert events'[..k] == events[..k];
      if Last(items).Ev? {
        assert events'[k + 1..] == events[k + 1..] + lost;
      } else {
        assert events'[k] == events[k];
      }
    }
  }

  /** A newer motion overwriting a queued one. */
  lemma AccountsReplace(policy: Policy, items: seq<Item>, events: seq<Event>, e: Event)
    requires Accounts(policy, items, events) && Numbered(events)
    requires items != [] && Last(items).Ev? && Droppable(policy, Last(items).event)
    ensures Accounts(policy, Front(items) + [Ev(e)], events + [e])
  {
    var k := CutOf(policy, items, events);
    assert events[k..] == [events[k]] + events[k + 1..] && events[..k] + events[k..] == events;
    AccountsLoss(policy, Front(items), events[..k], events[k..]);
    AccountsPush(policy, Front(items), events, e);
  }

  /** A gap marker overwriting the newest event, which is lost along with `e`; it names the last
      event handed out, which every earlier item precedes or is. */
  lemma AccountsMark(policy: Policy, items: seq<Item>, events: seq<Event>, e: Event, n: nat)
    requires items != [] && Last(items).Ev? && (n == 0 || HandedOut(Front(items), n))
    requires Accounts(policy, items, events) && Numbered(events + [e])
    ensures Accounts(policy, Front(items) + [Gap(n)], events + [e])
  {
    var kept, events' := Front(items), events + [e];
    var k := CutOf(policy, items, events);
    assert Front(kept + [Gap(n)]) == kept && events'[..k] == events[..k];
    if n != 0 {
      var d :| Ev(d) in kept && d.sequence == n;
      AccountedEventsWerePublished(policy, kept, events[..k], d);
      var i :| 0 <= i < k && events'[i] == d;
    }
    assert forall j :: k <= j < |events'| ==> n < events'[j].sequence;
  }

  ghost predicate Accounted(h: History) {
    && Bounded(h)
    && Accounts(h.q.policy, h.delivered + h.q.items, h.published)
    && (h.q.lastDelivered == 0 || HandedOut(h.delivered, h.q.lastDelivered))
  }

  /** One more publication, on a queue that can hold something. */
  lemma AccountsPublish(h: History, e: Event)
    requires Accounted(h) && 0 < h.q.capacity && Numbered(h.published + [e])
    ensures Accounted(Step(h, Publish(e)))
  {
    hide Accounts;
    var q, all := h.q, h.delivered + h.q.items;
    assert forall k :: 0 <= k < |h.published| ==> (h.published + [e])[k] == h.published[k];
    if |q.items| < q.capacity {
      AccountsPush(q.policy, all, h.published, e);
      assert h.delivered + (q.items + [Ev(e)]) == all + [Ev(e)];
    } else {
      assert Front(all) == h.delivered + Front(q.items) && Last(all) == Last(q.items);
      if Coalesces(q, e) {
        AccountsReplace(q.policy, all, h.published, e);
        assert h.delivered + (Front(q.items) + [Ev(e)]) == Front(all) + [Ev(e)];
      } else if MarksGap(q, e) && Last(all).Ev? {
        var n := q.lastDelivered;
        if n != 0 {
          var d :| Ev(d) in h.delivered && d.sequence == n;
          assert Ev(d) in Front(all);
        }
        AccountsMark(q.policy, all, h.published, e, n);
        assert h.delivered + (Front(q.items) + [Gap(n)]) == Front(all) + [Gap(n)];
      } else {
        AccountsLoss(q.policy, all, h.published, [e]);
      }
    }
  }

  lemma AccountsPop(h: History)
    requires Accounted(h)
    ensures Accounted(Step(h, Pop))
  {
    var next := Step(h, Pop);
    assert next.delivered + next.q.items == h.delivered + h.q.items;
    if h.q.items != [] {
      var item := h.q.items[0];
      if item.Ev? {
        assert next.delivered[|h.delivered|] == item;
      } else if h.q.lastDelivered != 0 {
        var e :| Ev(e) in h.delivered && e.sequence == h.q.lastDelivered;
        assert Ev(e) in next.delivered;
      }
    }
  }

  lemma StepKeepsSetting(h: History, op: Op)
    requires Bounded(h)
    ensures Step(h, op).q.capacity == h.q.capacity && Step(h, op).q.policy == h.q.policy
    ensures Step(h, op).published == h.published + if op.Publish? then [op.event] else []
  {
  }

  lemma NumberedPrefix(events: seq<Event>, more: seq<Event>)
    requires Numbered(events + more)
    ensures Numbered(events)
  {
    assert forall k :: 0 <= k < |events| ==> (events + more)[k] == events[k];
  }

  lemma NothingAccounted(capacity: nat, policy: Policy)
    ensures Accounted(Initial(capacity, policy))
  {
  }

  /** Over every run: what was handed out and what is still queued tell, in publication order, the
      whole story of what was published, and only droppable events go missing without a marker. */
  lemma {:induction false} NothingLostSilently(capacity: nat, policy: Policy, ops: seq<Op>)
    requires 0 < capacity
    requires Numbered(Run(capacity, policy, ops).published)
    ensures var h := Run(capacity, policy, ops); h.q.capacity == capacity && h.q.policy == policy && Accounted(h)
  {
    hide Step, Accounted, Numbered;
    if ops == [] {
      NothingAccounted(capacity, policy);
    } else {
      var before, op := Run(capacity, policy, ops[..|ops| - 1]), ops[|ops| - 1];
      StepKeepsSetting(before, op);
      NumberedPrefix(before.published, if op.Publish? then [op.event] else []);
      NothingLostSilently(capacity, policy, ops[..|ops| - 1]);
      match op
      case Publish(e) => AccountsPublish(before, e);
      case Pop => AccountsPop(before);
    }
  }

  lemma NothingDroppable(events: seq<Event>)
    requires AllDroppable(NeverDrop, events)
    ensures events == []
  {
    if events != [] {
      var first := Droppable(NeverDrop, events[0]);
    }
  }

  /** Without gap markers, a queue that never drops has handed out or still holds every event. */
  lemma {:induction false} NoGapNoLoss(items: seq<Item>, events: seq<Event>)
    requires Accounts(NeverDrop, items, events)
    requires forall k :: 0 <= k < |items| ==> items[k].Ev?
    ensures |items| == |events| && forall k :: 0 <= k < |items| ==> items[k] == Ev(events[k])
  {
    if items == [] {
      NothingDroppable(events);
    } else {
      var k := CutOf(NeverDrop, items, events);
      NothingDroppable(events[k + 1..]);
      NoGapNoLoss(Front(items), events[..k]);
    }
  }

  // ---- What one publication does ----

  /** The event is lost, and counted. */
  ghost predicate Dropped(before: Queue, after: Queue, notify: bool) {
    after == before.(overflow := before.overflow + 1) && !notify
  }

  /** The event is lost, and counted; a marker at the end names the last event handed out before, unless there is
      a marker already. */
  ghost predicate Marked(before: Queue, lastNumber: nat, after: Queue, notify: bool)
    requires before.items != []
  {
    && after == before.(items := after.items, overflow := before.overflow + 1, needsResync := true) && notify
    && after.items == if before.items[|before.items| - 1].Gap? then before.items
                      else before.items[..|before.items| - 1] + [Gap(lastNumber)]
  }

  /** The event is the newest of the queue, behind the first `kept` items, and nothing else changes. */
  ghost predicate Newest(before: Queue, kept: nat, e: Event, after: Queue, notify: bool)
    requires kept <= |before.items|
  {
    after == before.(items := before.items[..kept] + [Ev(e)]) && notify
  }

  /** Every outcome of a publication, by policy, room, kind and the newest item: with room the event is appended;
      on a full queue a motion replaces a motion where the policy coalesces; otherwise, where the policy or the
      kind may not drop, there is a marker; the rest is dropped. */
  ghost predicate Outcome(before: Queue, lastNumber: nat, e: Event, after: Queue, notify: bool) {
    var n := |before.items|;
    if before.capacity == 0 then Dropped(before, after, notify)
    else if n < before.capacity then Newest(before, n, e, after, notify)
    else if n == 0 then false
    else if before.policy == Coalesce && e.kind == MouseMoveKind
            && before.items[n - 1].Ev? && before.items[n - 1].event.kind == MouseMoveKind
    then Newest(before, n - 1, e, after, notify)
    else if before.policy == NeverDrop || e.kind == MouseClickKind || (e.kind.OtherKind? && e.kind.neverDrop)
    then Marked(before, lastNumber, after, notify)
    else Dropped(before, after, notify)
  }

  lemma EnqueuedOutcome(q: Queue, e: Event)
    requires |q.items| <= q.capacity
    ensures Outcome(q, q.lastDelivered, e, Enqueued(q, e).0, Enqueued(q, e).1)
  {
    if |q.items| < q.capacity { assert q.items[..|q.items|] == q.items; }
  }

  /** The number of the last event among the items, zero if there is none. */
  function LastNumber(items: seq<Item>): nat {
    if items == [] then 0
    else if items[|items| - 1].Ev? then items[|items| - 1].event.sequence
    else LastNumber(items[..|items| - 1])
  }

  lemma RunPush(capacity: nat, policy: Policy, ops: seq<Op>, op: Op)
    ensures Run(capacity, policy, ops + [op]) == Step(Run(capacity, policy, ops), op)
  {
    assert (ops + [op])[..|ops|] == ops;
  }

  lemma {:induction false} RunKeepsSetting(capacity: nat, policy: Policy, ops: seq<Op>)
    ensures var h := Run(capacity, policy, ops);
      h.q.capacity == capacity && h.q.policy == policy && h.q.lastDelivered == LastNumber(h.delivered)
  {
    if ops != [] {
      var before, op := Run(capacity, policy, ops[..|ops| - 1]), ops[|ops| - 1];
      RunKeepsSetting(capacity, policy, ops[..|ops| - 1]);
      StepKeepsSetting(before, op);
      if op.Pop? && before.q.items != [] {
        assert Step(before, op).delivered[..|before.delivered|] == before.delivered;
      }
    }
  }

  /** What a publication does at any moment of any run; a marker names the event that was handed out last. */
  lemma RunOutcome(capacity: nat, policy: Policy, ops: seq<Op>, e: Event)
    ensures var before, after := Run(capacity, policy, ops), Run(capacity, policy, ops + [Publish(e)]);
      && before.q.capacity == capacity && before.q.policy == policy
      && Outcome(before.q, LastNumber(before.delivered), e, after.q, Enqueued(before.q, e).1)
      && after.delivered == before.delivered
  {
    RunPush(capacity, policy, ops, Publish(e));
    RunKeepsSetting(capacity, policy, ops);
    EnqueuedOutcome(Run(capacity, policy, ops).q, e);
  }

  /** A coalescing queue always takes a motion: into its room, or in place of the motion it holds last. */
  lemma MotionIsTaken(capacity: nat, ops: seq<Op>, e: Event)
    requires 0 < capacity && e.kind == MouseMoveKind
    ensures var before, after := Run(capacity, Coalesce, ops), Run(capacity, Coalesce, ops + [Publish(e)]);
      var items := before.q.items;
      |items| < capacity || (items[|items| - 1].Ev? && items[|items| - 1].event.kind == MouseMoveKind) ==>
        && after.q.items != [] && after.q.items[|after.q.items| - 1] == Ev(e)
        && after.q.overflow == before.q.overflow && Enqueued(before.q, e).1
  {
    RunOutcome(capacity, Coalesce, ops, e);
  }

  function EventCount(items: seq<Item>): (n: nat)
    ensures n <= |items|
  {
    if items == [] then 0
    else EventCount(Front(items)) + if Last(items).Ev? then 1 else 0
  }

  function GapCount(items: seq<Item>): nat {
    |items| - EventCount(items)
  }

  lemma EventCountPush(items: seq<Item>, item: Item)
    ensures EventCount(items + [item]) == EventCount(items) + if item.Ev? then 1 else 0
  {
    assert Front(items + [item]) == items;
  }

  /** The publication overwrites queued motion. */
  predicate Overwrites(q: Queue, op: Op) {
    op.Publish? && 0 < q.capacity <= |q.items| && Coalesces(q, op.event)
  }

  /** How many motions were overwritten by newer ones. */
  function Coalesced(capacity: nat, policy: Policy, ops: seq<Op>): nat {
    if ops == [] then 0
    else
      var n := |ops| - 1;
      Coalesced(capacity, policy, ops[..n]) + if Overwrites(Run(capacity, policy, ops[..n]).q, ops[n]) then 1 else 0
  }

  function Everything(h: History): seq<Item> {
    h.delivered + h.q.items
  }

  /** The published events that were not handed out and are not queued. */
  function Lost(h: History): int {
    |h.published| - EventCount(Everything(h))
  }

  /** Every lost event was counted as overflow, or overwritten by motion or by a new gap marker. */
  ghost predicate Balanced(h: History, coalesced: nat) {
    Lost(h) == h.q.overflow + GapCount(Everything(h)) + coalesced
  }

  lemma ReplacedCount(front: seq<Item>, was: Item, now: Item)
    ensures EventCount(front + [was]) - (if was.Ev? then 1 else 0) == EventCount(front + [now]) - (if now.Ev? then 1 else 0)
  {
    EventCountPush(front, was);
    EventCountPush(front, now);
  }

  lemma PublishBalances(h: History, e: Event, coalesced: nat)
    requires Bounded(h) && Balanced(h, coalesced)
    ensures Balanced(Step(h, Publish(e)), coalesced + if Overwrites(h.q, Publish(e)) then 1 else 0)
  {
    var was, now := Everything(h), Everything(Step(h, Publish(e)));
    if |h.q.items| < h.q.capacity {
      assert now == was + [Ev(e)];
      EventCountPush(was, Ev(e));
    } else if h.q.capacity != 0 {
      var front, last := h.delivered + Front(h.q.items), Last(h.q.items);
      assert was == front + [last];
      if Coalesces(h.q, e) {
        assert now == front + [Ev(e)];
        ReplacedCount(front, last, Ev(e));
      } else if MarksGap(h.q, e) && last.Ev? {
        assert now == front + [Gap(h.q.lastDelivered)];
        ReplacedCount(front, last, Gap(h.q.lastDelivered));
      } else {
        assert now == was;
      }
    }
  }

  lemma PopBalances(h: History, coalesced: nat)
    requires Bounded(h) && Balanced(h, coalesced)
    ensures Balanced(Step(h, Pop), coalesced)
  {
    assert Everything(Step(h, Pop)) == Everything(h);
  }

  /** The overflow counter understates the loss: over every run under either policy, the events that went
      missing are the ones it counted, plus one for every gap marker made, plus the motions coalesced. It is
      the loss exactly if there is neither. */
  lemma {:induction false} OverflowUndercounts(capacity: nat, policy: Policy, ops: seq<Op>)
    ensures var h, coalesced := Run(capacity, policy, ops), Coalesced(capacity, policy, ops);
      && Balanced(h, coalesced)
      && (h.q.overflow == Lost(h) <==> GapCount(Everything(h)) == 0 && coalesced == 0)
  {
    if ops != [] {
      var n := |ops| - 1;
      var before := Run(capacity, policy, ops[..n]);
      OverflowUndercounts(capacity, policy, ops[..n]);
      match ops[n]
      case Publish(e) => PublishBalances(before, e, Coalesced(capacity, policy, ops[..n]));
      case Pop => PopBalances(before, Coalesced(capacity, policy, ops[..n]));
    }
  }

  /** A queue without room marks nothing, even under the policy that never drops. */
  lemma {:induction false} NoRoomNoMarker(policy: Policy, ops: seq<Op>)
    ensures var h := Run(0, policy, ops);
      h.q.items == [] && h.delivered == [] && h.q.overflow == |h.published| && h.q.capacity == 0 && !h.q.needsResync
  {
    if ops != [] {
      NoRoomNoMarker(policy, ops[..|ops| - 1]);
    }
  }
}
