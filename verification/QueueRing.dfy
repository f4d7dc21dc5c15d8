/** The items of a queue (os_queue.c): fixed-size slots in one byte ring, a normal send that needs a free
    slot and an overwriting one that takes the oldest item's. Who waits is in module Kernel. */
module QueueRing {
  import opened Ring
  import opened Sequences

  type Item = seq<byte>

  // ---------- slots ----------

  /** Slot i of a buffer of slots of n bytes. */
  function Slot(b: seq<byte>, i: nat, n: nat): Item {
    if 0 <= i * n <= (i + 1) * n <= |b| then b[i * n..(i + 1) * n] else []
  }

  lemma SlotWithin(i: nat, n: nat)
    ensures 0 <= i * n <= (i + 1) * n == i * n + n
  {
  }

  lemma {:induction false} SlotsApart(i: nat, j: nat, n: nat)
    requires i < j
    ensures (i + 1) * n <= j * n
    decreases j
  {
    if i + 1 < j {
      SlotsApart(i, j - 1, n);
      SlotWithin(j - 1, n);
    }
  }

  lemma SlotInside(i: nat, cap: nat, n: nat)
    requires i < cap
    ensures (i + 1) * n <= cap * n
  {
    SlotsApart(i, cap, n);
  }

  /** Writing one slot leaves every other as it was. */
  lemma OneSlotWritten(a: seq<byte>, b: seq<byte>, cap: nat, n: nat, i: nat, j: nat, item: Item)
    requires |a| == cap * n && i < cap && j < cap && |item| == n
    requires 0 <= i * n && i * n + n <= |a| && b == a[..i * n] + item + a[i * n + n..]
    ensures |b| == |a|
    ensures Slot(b, j, n) == if j == i then item else Slot(a, j, n)
  {
    SlotInside(j, cap, n);
    SlotWithin(i, n);
    SlotWithin(j, n);
    if j < i { SlotsApart(j, i, n); } else if j > i { SlotsApart(i, j, n); }
  }

  // ---------- the items as a queue ----------

  /** What left the queue: handed to a receiver, or displaced by an overwriting send. */
  datatype Gone = Taken(item: Item) | Displaced(item: Item)

  datatype Queue = Queue(capacity: nat, items: seq<Item>, gone: seq<Gone>)

  /** A send: stored in a free slot; or, when `overwrite`, in the oldest item's; or refused. */
  function Sent(q: Queue, item: Item, overwrite: bool): Queue {
    if |q.items| < q.capacity then q.(items := q.items + [item])
    else if overwrite && q.capacity != 0 && q.items != [] then
      q.(items := q.items[1..] + [item], gone := q.gone + [Displaced(q.items[0])])
    else q
  }

  predicate Accepts(q: Queue, overwrite: bool) { |q.items| < q.capacity || (overwrite && q.capacity != 0) }

  function Received(q: Queue): Queue
    requires q.items != []
  {
    q.(items := q.items[1..], gone := q.gone + [Taken(q.items[0])])
  }

  datatype Call = Send(item: Item, overwrite: bool) | Receive

  function Do(q: Queue, c: Call): Queue {
    match c
    case Send(item, overwrite) => Sent(q, item, overwrite)
    case Receive => if q.items == [] then q else Received(q)
  }

  function Run(q: Queue, calls: seq<Call>): Queue
    decreases |calls|
  {
    if calls == [] then q else Run(Do(q, calls[0]), calls[1..])
  }

  /** The items of the calls that were accepted, in order. */
  function Accepted(q: Queue, calls: seq<Call>): seq<Item>
    decreases |calls|
  {
    if calls == [] then []
    else (if calls[0].Send? && Accepts(q, calls[0].overwrite) then [calls[0].item] else []) + Accepted(Do(q, calls[0]), calls[1..])
  }

  function Items(gone: seq<Gone>): seq<Item>
    decreases |gone|
  {
    if gone == [] then [] else Items(gone[..|gone| - 1]) + [gone[|gone| - 1].item]
  }

  lemma ItemsSnoc(gone: seq<Gone>, g: Gone)
    ensures Items(gone + [g]) == Items(gone) + [g.item]
  {
    assert (gone + [g])[..|gone|] == gone;
  }

  /** A queue never holds more than its capacity. */
  predicate Fits(q: Queue) { |q.items| <= q.capacity }

  /** One call: what left and what is left grow together by what was accepted. */
  lemma OneCall(q: Queue, c: Call)
    requires Fits(q)
    ensures Fits(Do(q, c))
    ensures Items(Do(q, c).gone) + Do(q, c).items
         == Items(q.gone) + q.items + (if c.Send? && Accepts(q, c.overwrite) then [c.item] else [])
    ensures !(c.Send? && c.overwrite) ==> forall g :: g in Do(q, c).gone && g.Displaced? ==> g in q.gone
  {
    if q.items != [] {
      ItemsSnoc(q.gone, Taken(q.items[0]));
      ItemsSnoc(q.gone, Displaced(q.items[0]));
      assert q.items == [q.items[0]] + q.items[1..];
    }
    hide Items;
  }

  /** Over any run: what left, in order of leaving, and then what is left, is exactly what was accepted, in
      order of acceptance. Nothing is lost, duplicated or reordered. */
  lemma {:induction false} FirstInFirstOut(q: Queue, calls: seq<Call>)
    requires Fits(q)
    ensures Fits(Run(q, calls))
    ensures Items(Run(q, calls).gone) + Run(q, calls).items == Items(q.gone) + q.items + Accepted(q, calls)
    decreases |calls|
  {
    hide Items, Do, Accepts;
    if calls == [] {
      assert Items(q.gone) + q.items + [] == Items(q.gone) + q.items;
    } else {
      OneCall(q, calls[0]);
      FirstInFirstOut(Do(q, calls[0]), calls[1..]);
      var one := if calls[0].Send? && Accepts(q, calls[0].overwrite) then [calls[0].item] else [];
      Regroup(Items(q.gone) + q.items, one, Accepted(Do(q, calls[0]), calls[1..]));
    }
  }

  lemma Regroup(a: seq<Item>, b: seq<Item>, c: seq<Item>)
    ensures (a + b) + c == a + (b + c)
  {
  }

  /** While there is a free slot an item is accepted and nothing leaves; a full queue displaces its oldest item for an
      overwriting send, unless it has no slot at all, and refuses any other. */
  lemma SendOutcome(q: Queue, item: Item, overwrite: bool)
    requires Fits(q)
    ensures var q' := Sent(q, item, overwrite); var accepted := Accepts(q, overwrite);
            && (|q.items| < q.capacity ==> accepted && q'.items == q.items + [item] && q'.gone == q.gone)
            && (|q.items| == q.capacity ==> (accepted <==> overwrite && q.capacity > 0))
            && (accepted ==> Fits(q') && q'.items != [] && q'.items[|q'.items| - 1] == item)
            && (accepted && |q.items| == q.capacity ==> Items(q'.gone) == Items(q.gone) + [q.items[0]] && |q'.items| == q.capacity)
            && (!accepted ==> q' == q)
  {
    if q.items != [] { ItemsSnoc(q.gone, Displaced(q.items[0])); }
    hide Items;
  }

  /** Without overwriting sends nothing is ever displaced. */
  lemma {:induction false} NormalSendsDisplaceNothing(q: Queue, calls: seq<Call>)
    requires Fits(q) && forall c :: c in calls && c.Send? ==> !c.overwrite
    ensures forall g :: g in Run(q, calls).gone && g.Displaced? ==> g in q.gone
    decreases |calls|
  {
    if calls != [] {
      OneCall(q, calls[0]);
      assert calls[0] in calls && forall c :: c in calls[1..] ==> c in calls;
      hide Do;
      NormalSendsDisplaceNothing(Do(q, calls[0]), calls[1..]);
    }
  }

  // ---------- the ring ----------

  /** The items from position head on. */
  function Held(b: seq<byte>, cap: nat, n: nat, head: nat, count: nat): (r: seq<Item>)
    requires count <= cap && (cap > 0 ==> head < cap)
    ensures |r| == count
  {
    seq(count, i requires 0 <= i < count => Slot(b, Wrap(head + i, cap), n))
  }

  /** A slot outside the held ones is written: they are as before. */
  lemma AppendedHeld(a: seq<byte>, b: seq<byte>, cap: nat, n: nat, head: nat, count: nat, item: Item)
    requires |a| == cap * n && head < cap && count < cap && |item| == n
    requires var t := Wrap(head + count, cap); 0 <= t * n && t * n + n <= |a| && b == a[..t * n] + item + a[t * n + n..]
    ensures Held(b, cap, n, head, count + 1) == Held(a, cap, n, head, count) + [item]
  {
    var t := Wrap(head + count, cap);
    var x, y := Held(b, cap, n, head, count + 1), Held(a, cap, n, head, count) + [item];
    forall i | 0 <= i < count + 1 ensures x[i] == y[i] {
      OneSlotWritten(a, b, cap, n, t, Wrap(head + i, cap), item);
    }
  }

  /** The head slot of a full ring is written: its item is gone, the new one is last. */
  lemma DisplacedHeld(a: seq<byte>, b: seq<byte>, cap: nat, n: nat, head: nat, item: Item)
    requires |a| == cap * n && head < cap && |item| == n
    requires 0 <= head * n && head * n + n <= |a| && b == a[..head * n] + item + a[head * n + n..]
    ensures Held(b, cap, n, Wrap(head + 1, cap), cap) == Held(a, cap, n, head, cap)[1..] + [item]
  {
    var h := Wrap(head + 1, cap);
    var x, y := Held(b, cap, n, h, cap), Held(a, cap, n, head, cap)[1..] + [item];
    forall i | 0 <= i < cap ensures x[i] == y[i] {
      OneSlotWritten(a, b, cap, n, head, Wrap(h + i, cap), item);
      if i < cap - 1 { assert Wrap(h + i, cap) == Wrap(head + (i + 1), cap); }
    }
  }

  lemma ReceivedHeld(a: seq<byte>, cap: nat, n: nat, head: nat, count: nat)
    requires head < cap && 0 < count <= cap
    ensures Held(a, cap, n, head, count)[0] == Slot(a, head, n)
    ensures Held(a, cap, n, head, count)[1..] == Held(a, cap, n, Wrap(head + 1, cap), count - 1)
  {
    var h := Wrap(head + 1, cap);
    assert Wrap(head + 0, cap) == head;
    var x, y := Held(a, cap, n, head, count)[1..], Held(a, cap, n, h, count - 1);
    forall i | 0 <= i < count - 1 ensures x[i] == y[i] {
      assert Wrap(h + i, cap) == Wrap(head + (i + 1), cap);
    }
  }

  class ItemQueue {
    const capacity: nat
    const itemSize: nat
    const buffer: array<byte>
    var head: nat
    var tail: nat
    var count: nat
    /** What left, in order. */
    ghost var gone: seq<Gone>

    /** An unbound queue has no capacity, and so is both full and empty. */
    ghost predicate Valid()
      reads this
    {
      && buffer.Length == capacity * itemSize && count <= capacity
      && (capacity > 0 ==> head < capacity && tail == Wrap(head + count, capacity))
    }

    ghost function Seen(): Queue
      reads this, buffer
      requires Valid()
    {
      Queue(capacity, Held(buffer[..], capacity, itemSize, head, count), gone)
    }

    constructor (slots: nat, bytes: nat)
      ensures Valid() && fresh(buffer) && capacity == slots && itemSize == bytes && Seen() == Queue(slots, [], [])
    {
      capacity, itemSize, head, tail, count, gone := slots, bytes, 0, 0, 0, [];
      SlotWithin(slots, bytes);
      Product(slots, bytes);
      buffer := new byte[slots * bytes](_ => 0);
    }

    /** memcpy into slot i. */
    method Store(i: nat, item: Item)
      requires buffer.Length == capacity * itemSize && i < capacity && |item| == itemSize
      modifies buffer
      ensures 0 <= i * itemSize && i * itemSize + itemSize <= buffer.Length
      ensures buffer[..] == old(buffer[..i * itemSize]) + item + old(buffer[i * itemSize + itemSize..])
    {
      SlotInside(i, capacity, itemSize);
      SlotWithin(i, itemSize);
      CopyIn(buffer, i * itemSize, item);
    }

    /** A free slot takes the item. */
    method Append(item: Item)
      requires Valid() && |item| == itemSize && count < capacity
      modifies this`tail, this`count, buffer
      ensures Valid() && Seen() == old(Seen()).(items := old(Seen()).items + [item])
    {
      ghost var before := buffer[..];
      Advance(head, count, capacity);
      Store(tail, item);
      AppendedHeld(before, buffer[..], capacity, itemSize, head, count, item);
      hide Held, Slot;
      tail := (tail + 1) % capacity;
      count := count + 1;
    }

    /** Full: the slot at tail is the oldest item's. Both cursors move, the count stays. */
    method Displace(item: Item)
      requires Valid() && |item| == itemSize && count == capacity > 0
      modifies this`head, this`tail, this`gone, buffer
      ensures Valid() && Seen() == Sent(old(Seen()), item, true)
    {
      hide Held, Slot;
      ghost var h, before := head, buffer[..];
      Full(head, capacity);
      Advance(head, 0, capacity);
      gone := gone + [Displaced(Seen().items[0])];
      head := (head + 1) % capacity;
      Full(head, capacity);
      Store(tail, item);
      DisplacedHeld(before, buffer[..], capacity, itemSize, h, item);
      tail := (tail + 1) % capacity;
    }

    /** The storing arms of os_queue_send. `overwrite`: overwrite mode, and out of patience. */
    method Send(item: Item, overwrite: bool) returns (stored: bool)
      requires Valid() && |item| == itemSize
      modifies this`head, this`tail, this`count, this`gone, buffer
      ensures Valid() && stored == Accepts(old(Seen()), overwrite)
      ensures Seen() == Sent(old(Seen()), item, overwrite)
    {
      hide Held, Slot;
      stored := count < capacity || (overwrite && capacity != 0);
      if count < capacity {
        Append(item);
      } else if overwrite && capacity != 0 {
        Displace(item);
      }
    }

    /** The taking arm of os_queue_receive. */
    method Receive() returns (taken: Option<Item>)
      requires Valid()
      modifies this`head, this`count, this`gone
      ensures Valid() && Seen() == Do(old(Seen()), Call.Receive)
      ensures taken == if old(Seen()).items == [] then None else Some(old(Seen()).items[0])
    {
      taken := None;
      if count > 0 {
        ghost var q := Seen();
        SlotInside(head, capacity, itemSize);
        SlotWithin(head, itemSize);
        ReceivedHeld(buffer[..], capacity, itemSize, head, count);
        taken := Some(buffer[head * itemSize..(head + 1) * itemSize]);
        assert taken.value == Slot(buffer[..], head, itemSize);
        hide Held, Slot;
        gone := gone + [Taken(q.items[0])];
        Advance(head, 0, capacity);
        Shifted(head, count, capacity);
        head := (head + 1) % capacity;
        count := count - 1;
      }
    }
  }

  lemma Product(a: nat, b: nat)
    ensures 0 <= a * b
  {
  }

  /** The cursor behind `count` items moves one on. */
  lemma Advance(head: nat, count: nat, cap: nat)
    requires head < cap && count < cap
    ensures (Wrap(head + count, cap) + 1) % cap < cap
    ensures (Wrap(head + count, cap) + 1) % cap == Wrap(head + count + 1, cap)
  {
    WrapIsModulo(Wrap(head + count, cap) + 1, cap);
  }

  lemma Full(head: nat, cap: nat)
    requires head < cap
    ensures Wrap(head + cap, cap) == head
  {
  }

  lemma Shifted(head: nat, count: nat, cap: nat)
    requires head < cap && 0 < count <= cap
    ensures Wrap(Wrap(head + 1, cap) + (count - 1), cap) == Wrap(head + count, cap)
  {
  }
}
