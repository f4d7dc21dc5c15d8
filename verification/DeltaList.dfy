/** The delta lists of the delay queue (os_task.c) and of the running timers (os_timer.c).

    Both are the same algorithm: entries in wake-up order, each holding the ticks it waits AFTER
    the entry in front of it. Timeline is the independent reading: the absolute tick at which every
    entry is due. Ticks are 32-bit in the source, so the claims include that no sum overflows and
    that no stored value ever becomes OS_WAIT_FOREVER. */
module DeltaList {

  const WAIT_FOREVER: nat := 0xFFFF_FFFF
  const LONGEST_WAIT: nat := WAIT_FOREVER - 1
  const WORD: nat := 0x1_0000_0000

  datatype Entry = Entry(id: nat, delta: nat)
  datatype Due = Due(id: nat, when: nat)

  // ---------- the list operations, as the C code computes them ----------

  function Insert(l: seq<Entry>, id: nat, ticks: nat): seq<Entry> {
    if l == [] then [Entry(id, ticks)]
    else if l[0].delta > ticks then [Entry(id, ticks), Entry(l[0].id, l[0].delta - ticks)] + l[1..]
    else [l[0]] + Insert(l[1..], id, ticks - l[0].delta)
  }

  /** The list once its head is gone: the successor takes over the head's share. */
  function Handover(l: seq<Entry>): seq<Entry>
    requires l != []
  {
    if |l| == 1 then [] else [Entry(l[1].id, l[1].delta + l[0].delta)] + l[2..]
  }

  function Remove(l: seq<Entry>, id: nat): seq<Entry> {
    if l == [] then []
    else if l[0].id == id then Handover(l)
    else [l[0]] + Remove(l[1..], id)
  }

  /** Let ticks pass: the entries that fall due, in order, and the list that remains. */
  function Expired(l: seq<Entry>, ticks: nat): seq<nat> {
    if l == [] || l[0].delta > ticks then []
    else [l[0].id] + Expired(l[1..], ticks - l[0].delta)
  }

  function Remaining(l: seq<Entry>, ticks: nat): seq<Entry> {
    if l == [] then []
    else if l[0].delta > ticks then [Entry(l[0].id, l[0].delta - ticks)] + l[1..]
    else Remaining(l[1..], ticks - l[0].delta)
  }

  function Ids(l: seq<Entry>): (r: seq<nat>)
    ensures |r| == |l|
  {
    if l == [] then [] else [l[0].id] + Ids(l[1..])
  }

  lemma {:induction false} IdAt(l: seq<Entry>, i: nat)
    requires i < |l|
    ensures Ids(l)[i] == l[i].id
  {
    if i > 0 {
      IdAt(l[1..], i - 1);
    }
  }

  // ---------- the reference: absolute deadlines ----------

  function Timeline(l: seq<Entry>, now: nat): (r: seq<Due>)
    ensures |r| == |l|
  {
    if l == [] then [] else [Due(l[0].id, now + l[0].delta)] + Timeline(l[1..], now + l[0].delta)
  }

  predicate Ordered(t: seq<Due>) {
    forall i, j :: 0 <= i < j < |t| ==> t[i].when <= t[j].when
  }

  /** A new deadline joins behind everything due no later. */
  function Enroll(t: seq<Due>, d: Due): seq<Due> {
    if t == [] || t[0].when > d.when then [d] + t else [t[0]] + Enroll(t[1..], d)
  }

  /** Enroll is an insertion at one point of the timeline: earlier and equal deadlines stay in front
      (first-in first-out among ties), later ones stay behind. */
  lemma {:induction false} EnrollPlaces(t: seq<Due>, d: Due) returns (i: nat)
    requires Ordered(t)
    ensures i <= |t| && Enroll(t, d) == t[..i] + [d] + t[i..]
    ensures forall j :: 0 <= j < i ==> t[j].when <= d.when
    ensures forall j :: i <= j < |t| ==> t[j].when > d.when
  {
    if t == [] || t[0].when > d.when {
      i := 0;
    } else {
      var j := EnrollPlaces(t[1..], d);
      i := j + 1;
      assert t[..i] == [t[0]] + t[1..][..j];
      assert t[i..] == t[1..][j..];
    }
  }

  function Drop(t: seq<Due>, id: nat): seq<Due> {
    if t == [] then [] else if t[0].id == id then t[1..] else [t[0]] + Drop(t[1..], id)
  }

  lemma {:induction false} TimelineOrdered(l: seq<Entry>, now: nat)
    ensures Ordered(Timeline(l, now))
    ensures forall i :: 0 <= i < |l| ==> Timeline(l, now)[i].id == l[i].id && Timeline(l, now)[i].when >= now
  {
    if l != [] {
      TimelineOrdered(l[1..], now + l[0].delta);
    }
  }

  /** Insertion adds exactly the new deadline, leaves every other one where it was, and keeps ties FIFO. */
  lemma {:induction false} InsertKeepsDeadlines(l: seq<Entry>, id: nat, ticks: nat, now: nat)
    ensures Timeline(Insert(l, id, ticks), now) == Enroll(Timeline(l, now), Due(id, now + ticks))
  {
    if l != [] {
      var t := Timeline(l, now);
      assert t[1..] == Timeline(l[1..], now + l[0].delta);
      if l[0].delta > ticks {
        var rest := [Entry(l[0].id, l[0].delta - ticks)] + l[1..];
        assert Insert(l, id, ticks) == [Entry(id, ticks)] + rest;
        assert rest[1..] == l[1..];
        assert Timeline(rest, now + ticks) == t;
      } else {
        InsertKeepsDeadlines(l[1..], id, ticks - l[0].delta, now + l[0].delta);
      }
    }
  }

  /** Removal drops exactly that deadline: the removed share is handed to the successor. */
  lemma {:induction false} RemoveKeepsDeadlines(l: seq<Entry>, id: nat, now: nat)
    ensures Timeline(Remove(l, id), now) == Drop(Timeline(l, now), id)
  {
    if l != [] {
      if l[0].id != id {
        RemoveKeepsDeadlines(l[1..], id, now + l[0].delta);
      } else if |l| > 1 {
        var r := Remove(l, id);
        assert r[1..] == l[1..][1..];
      }
    }
  }

  /** How many entries at the front of a timeline are due. */
  function DueCount(t: seq<Due>, when: nat): nat {
    if t == [] || t[0].when > when then 0 else 1 + DueCount(t[1..], when)
  }

  /** On an ordered timeline DueCount separates the due from the not yet due. */
  lemma {:induction false} DueCountSplits(t: seq<Due>, when: nat)
    requires Ordered(t)
    ensures DueCount(t, when) <= |t|
    ensures forall i :: 0 <= i < DueCount(t, when) ==> t[i].when <= when
    ensures forall i :: DueCount(t, when) <= i < |t| ==> t[i].when > when
  {
    if t != [] && t[0].when <= when {
      DueCountSplits(t[1..], when);
    }
  }

  /** Letting ticks pass releases exactly the entries due by then, in timeline order, and moves no
      other deadline. */
  lemma {:induction false} AdvanceReleasesExactlyTheDue(l: seq<Entry>, ticks: nat, now: nat)
    ensures var k := DueCount(Timeline(l, now), now + ticks);
            && k <= |l|
            && Expired(l, ticks) == Ids(l[..k])
            && Timeline(Remaining(l, ticks), now + ticks) == Timeline(l, now)[k..]
  {
    if l != [] {
      var t := Timeline(l, now);
      assert t[1..] == Timeline(l[1..], now + l[0].delta);
      if l[0].delta <= ticks {
        AdvanceReleasesExactlyTheDue(l[1..], ticks - l[0].delta, now + l[0].delta);
        var k := DueCount(t[1..], now + ticks);
        assert l[..k + 1] == [l[0]] + l[1..][..k];
        assert l[..k + 1][1..] == l[1..][..k];
      } else {
        assert Remaining(l, ticks)[1..] == l[1..];
      }
    }
  }

  /** Two advances are one: a suppressed window wakes the same sleepers in the same order. */
  lemma {:induction false} AdvanceComposes(l: seq<Entry>, a: nat, b: nat)
    ensures Expired(l, a + b) == Expired(l, a) + Expired(Remaining(l, a), b)
    ensures Remaining(l, a + b) == Remaining(Remaining(l, a), b)
    decreases |l|
  {
    if l != [] {
      if l[0].delta <= a { ComposeBehind(l, a, b); } else { ComposeAtHead(l, a, b); }
    }
  }

  /** The head is due within the first advance already. */
  lemma ComposeBehind(l: seq<Entry>, a: nat, b: nat)
    requires l != [] && l[0].delta <= a
    ensures Expired(l, a + b) == Expired(l, a) + Expired(Remaining(l, a), b)
    ensures Remaining(l, a + b) == Remaining(Remaining(l, a), b)
    decreases |l|, 0
  {
    var d, x := l[0].delta, l[0].id;
    PassHead(l, a);
    PassHead(l, a + b);
    hide *;
    AdvanceComposes(l[1..], a - d, b);
    assert a + b - d == a - d + b;
    Regroup([x], Expired(l[1..], a - d), Expired(Remaining(l[1..], a - d), b));
  }

  lemma Regroup(a: seq<nat>, b: seq<nat>, c: seq<nat>)
    ensures a + (b + c) == (a + b) + c
  {
  }

  lemma PassHead(l: seq<Entry>, n: nat)
    requires l != [] && l[0].delta <= n
    ensures Expired(l, n) == [l[0].id] + Expired(l[1..], n - l[0].delta) && Remaining(l, n) == Remaining(l[1..], n - l[0].delta)
  {
  }

  /** The first advance only shortens the head's share. */
  lemma ComposeAtHead(l: seq<Entry>, a: nat, b: nat)
    requires l != [] && l[0].delta > a
    ensures Expired(l, a + b) == Expired(l, a) + Expired(Remaining(l, a), b)
    ensures Remaining(l, a + b) == Remaining(Remaining(l, a), b)
  {
    var m := Remaining(l, a);
    assert Expired(l, a) == [];
    assert m[1..] == l[1..] && m[0] == Entry(l[0].id, l[0].delta - a);
  }

  /** The head is the earliest deadline: tickless planning may read it alone. */
  lemma HeadIsEarliest(l: seq<Entry>, now: nat)
    requires l != []
    ensures forall d :: d in Timeline(l, now) ==> now + l[0].delta <= d.when
  {
    TimelineOrdered(l, now);
  }

  // ---------- 32-bit range ----------

  /** Ticks until the last entry is due: the largest absolute deadline in the list. */
  function Span(l: seq<Entry>): nat {
    if l == [] then 0 else l[0].delta + Span(l[1..])
  }

  /** Every partial sum the walk forms stays below the OS_WAIT_FOREVER sentinel. */
  predicate InRange(l: seq<Entry>) { Span(l) <= LONGEST_WAIT }

  lemma {:induction false} SpanBoundsEveryEntry(l: seq<Entry>, now: nat)
    ensures forall i :: 0 <= i < |l| ==> l[i].delta <= Span(l) && Timeline(l, now)[i].when <= now + Span(l)
  {
    if l != [] {
      SpanBoundsEveryEntry(l[1..], now + l[0].delta);
      forall i | 0 <= i < |l|
        ensures l[i].delta <= Span(l) && Timeline(l, now)[i].when <= now + Span(l)
      {
        if i > 0 {
          assert l[i] == l[1..][i - 1];
          assert Timeline(l, now)[i] == Timeline(l[1..], now + l[0].delta)[i - 1];
        }
      }
    }
  }

  /** What each operation does to the span: insertion raises it to the new deadline at most, removal and
      time never raise it. */
  lemma {:induction false} StaysInRange(l: seq<Entry>, id: nat, ticks: nat)
    ensures Span(Insert(l, id, ticks)) == if Span(l) > ticks then Span(l) else ticks
    ensures Span(Remove(l, id)) <= Span(l)
    ensures Span(Remaining(l, ticks)) <= Span(l)
  {
    if l != [] {
      if l[0].delta > ticks {
        var r := Insert(l, id, ticks);
        assert r[1..] == [Entry(l[0].id, l[0].delta - ticks)] + l[1..];
        assert r[1..][1..] == l[1..];
        assert Remaining(l, ticks)[1..] == l[1..];
        StaysInRange(l[1..], id, ticks);
      } else {
        StaysInRange(l[1..], id, ticks - l[0].delta);
      }
      if l[0].id == id && |l| > 1 {
        assert Remove(l, id)[1..] == l[1..][1..];
      } else if l[0].id != id {
        StaysInRange(l[1..], id, 0);
      }
    }
  }

  lemma RangeKept(l: seq<Entry>, id: nat, ticks: nat)
    requires InRange(l)
    ensures ticks <= LONGEST_WAIT ==> InRange(Insert(l, id, ticks))
    ensures InRange(Remove(l, id)) && InRange(Remaining(l, ticks))
  {
    StaysInRange(l, id, ticks);
  }

  /** The same walks on 32-bit words that wrap. */
  function Plus32(a: nat, b: nat): nat { (a + b) % WORD }
  function Minus32(a: nat, b: nat): nat { (a - b) % WORD }

  function Insert32(l: seq<Entry>, id: nat, ticks: nat): seq<Entry> {
    if l == [] then [Entry(id, ticks)]
    else if l[0].delta > ticks then [Entry(id, ticks), Entry(l[0].id, Minus32(l[0].delta, ticks))] + l[1..]
    else [l[0]] + Insert32(l[1..], id, Minus32(ticks, l[0].delta))
  }

  function Remove32(l: seq<Entry>, id: nat): seq<Entry> {
    if l == [] then []
    else if l[0].id != id then [l[0]] + Remove32(l[1..], id)
    else if |l| == 1 then []
    else [Entry(l[1].id, Plus32(l[1].delta, l[0].delta))] + l[2..]
  }

  function Remaining32(l: seq<Entry>, ticks: nat): seq<Entry> {
    if l == [] then []
    else if l[0].delta > ticks then [Entry(l[0].id, Minus32(l[0].delta, ticks))] + l[1..]
    else Remaining32(l[1..], Minus32(ticks, l[0].delta))
  }

  /** The remainder os_timer_running_remove sums on its walk. */
  function TicksLeft32(l: seq<Entry>, id: nat, sum: nat): nat {
    if id !in Ids(l) then 0
    else if l[0].id == id then Plus32(sum, l[0].delta)
    else TicksLeft32(l[1..], id, Plus32(sum, l[0].delta))
  }

  predicate SameOnWords(l: seq<Entry>, id: nat, ticks: nat) {
    Insert32(l, id, ticks) == Insert(l, id, ticks) && Remove32(l, id) == Remove(l, id) && Remaining32(l, ticks) == Remaining(l, ticks)
  }

  lemma Fits32(a: nat, b: nat)
    ensures a + b < WORD ==> Plus32(a, b) == a + b
    ensures b <= a < WORD ==> Minus32(a, b) == a - b
  {
  }

  lemma {:induction false} WalksFit(l: seq<Entry>, id: nat, ticks: nat)
    requires Span(l) <= LONGEST_WAIT && ticks < WORD
    ensures Insert32(l, id, ticks) == Insert(l, id, ticks) && Remaining32(l, ticks) == Remaining(l, ticks)
    decreases |l|
  {
    if l != [] {
      Fits32(ticks, l[0].delta);
      Fits32(l[0].delta, ticks);
      hide Minus32;
      if l[0].delta <= ticks { WalksFit(l[1..], id, ticks - l[0].delta); }
    }
  }

  lemma {:induction false} RemovalFits(l: seq<Entry>, id: nat)
    requires Span(l) <= LONGEST_WAIT
    ensures Remove32(l, id) == Remove(l, id)
    decreases |l|
  {
    if l != [] {
      if l[0].id != id {
        RemovalFits(l[1..], id);
      } else if |l| > 1 {
        assert Span(l[1..]) == l[1].delta + Span(l[1..][1..]);
        Fits32(l[1].delta, l[0].delta);
      }
    }
  }

  lemma {:induction false} RemainderFits(l: seq<Entry>, id: nat, sum: nat)
    requires sum + Span(l) <= LONGEST_WAIT && id in Ids(l)
    ensures TicksLeft32(l, id, sum) == sum + TicksLeft(l, id)
    decreases |l|
  {
    Fits32(sum, l[0].delta);
    if l[0].id != id {
      RemainderFits(l[1..], id, sum + l[0].delta);
    }
  }

  /** While the span is in range no word wraps: what the machine computes on wrapping words is what is
      computed on numbers. */
  lemma WordsAreExact(l: seq<Entry>, id: nat, ticks: nat)
    requires InRange(l) && ticks < WORD
    ensures SameOnWords(l, id, ticks)
    ensures id in Ids(l) ==> TicksLeft32(l, id, 0) == TicksLeft(l, id)
  {
    WalksFit(l, id, ticks);
    RemovalFits(l, id);
    if id in Ids(l) { RemainderFits(l, id, 0); }
  }

  /** No entry's word, and no remainder read from the list, is the sentinel. */
  lemma {:induction false} NoWordIsForever(l: seq<Entry>, id: nat)
    requires InRange(l)
    ensures forall i :: 0 <= i < |l| ==> l[i].delta < WAIT_FOREVER
    ensures TicksLeft(l, id) < WAIT_FOREVER
  {
    SpanBoundsEveryEntry(l, 0);
    TicksLeftInSpan(l, id);
  }

  lemma {:induction false} TicksLeftInSpan(l: seq<Entry>, id: nat)
    ensures TicksLeft(l, id) <= Span(l)
  {
    if id in Ids(l) && l[0].id != id {
      TicksLeftInSpan(l[1..], id);
    }
  }

  // ---------- membership ----------

  lemma IdsOfHead(l: seq<Entry>)
    requires l != []
    ensures Ids(l) == [l[0].id] + Ids(l[1..])
    ensures multiset(Ids(l)) == multiset{l[0].id} + multiset(Ids(l[1..]))
  {
  }

  lemma InsertInFront(l: seq<Entry>, id: nat, ticks: nat)
    requires l != [] && l[0].delta > ticks
    ensures multiset(Ids(Insert(l, id, ticks))) == multiset(Ids(l)) + multiset{id}
  {
    var r := Insert(l, id, ticks);
    var shorter := Entry(l[0].id, l[0].delta - ticks);
    assert r[0] == Entry(id, ticks) && r[1..] == [shorter] + l[1..];
    hide *;
    IdsOfHead(r);
    IdsOfHead([shorter] + l[1..]);
    IdsOfHead(l);
    assert ([shorter] + l[1..])[1..] == l[1..];
  }

  lemma InsertBehind(l: seq<Entry>, id: nat, ticks: nat)
    requires l != [] && l[0].delta <= ticks
    ensures Ids(Insert(l, id, ticks)) == [l[0].id] + Ids(Insert(l[1..], id, ticks - l[0].delta))
  {
    var rest := Insert(l[1..], id, ticks - l[0].delta);
    assert ([l[0]] + rest)[1..] == rest;
  }

  lemma {:induction false} InsertIds(l: seq<Entry>, id: nat, ticks: nat)
    ensures multiset(Ids(Insert(l, id, ticks))) == multiset(Ids(l)) + multiset{id}
    decreases |l|
  {
    hide *;
    if l == [] {
      InsertAlone(id, ticks);
    } else if l[0].delta > ticks {
      InsertInFront(l, id, ticks);
    } else {
      var rest := Insert(l[1..], id, ticks - l[0].delta);
      InsertBehind(l, id, ticks);
      InsertIds(l[1..], id, ticks - l[0].delta);
      IdsOfHead(l);
      OneInFront(l[0].id, Ids(rest));
      Regrouped(multiset{l[0].id}, multiset(Ids(l[1..])), multiset{id});
    }
  }

  lemma InsertAlone(id: nat, ticks: nat)
    ensures Insert([], id, ticks) == [Entry(id, ticks)] && Ids([Entry(id, ticks)]) == [id] && Ids([]) == []
  {
  }

  lemma OneInFront(id: nat, ids: seq<nat>)
    ensures multiset([id] + ids) == multiset{id} + multiset(ids)
  {
  }

  lemma Regrouped(a: multiset<nat>, b: multiset<nat>, c: multiset<nat>)
    ensures a + (b + c) == (a + b) + c
  {
  }

  lemma {:induction false} RemoveIds(l: seq<Entry>, id: nat)
    ensures multiset(Ids(Remove(l, id))) == multiset(Ids(l)) - multiset{id}
  {
    if l != [] {
      assert Ids(l) == [l[0].id] + Ids(l[1..]);
      if l[0].id != id {
        RemoveIds(l[1..], id);
        assert Remove(l, id) == [l[0]] + Remove(l[1..], id);
        assert Remove(l, id)[1..] == Remove(l[1..], id);
      } else if |l| > 1 {
        assert Remove(l, id)[1..] == l[1..][1..];
        assert Ids(Remove(l, id)) == Ids(l[1..]);
      }
    }
  }

  // ---------- the walks ----------

  /** os_task_delay_insert and os_timer_running_insert: one pass, subtracting shares until the entry
      that is due later is met. */
  method InsertWalk(l: seq<Entry>, id: nat, ticks: nat) returns (r: seq<Entry>)
    ensures r == Insert(l, id, ticks)
  {
    var i: nat, remaining: nat := 0, ticks;
    r := l;
    assert l[0..] == l;
    while i < |r| && r[i].delta <= remaining
      invariant i <= |r| && r == l
      invariant Insert(l, id, ticks) == l[..i] + Insert(l[i..], id, remaining)
    {
      InsertPasses(l, i, id, remaining);
      remaining := remaining - r[i].delta;
      i := i + 1;
    }
    InsertStops(l, i, id, remaining);
    if i < |r| {
      r := r[i := Entry(r[i].id, r[i].delta - remaining)];
    }
    r := r[..i] + [Entry(id, remaining)] + r[i..];
  }

  /** The walk passes an entry that is due no later: its share of the wait is spent. */
  lemma InsertPasses(l: seq<Entry>, i: nat, id: nat, remaining: nat)
    requires i < |l| && l[i].delta <= remaining
    ensures l[..i] + Insert(l[i..], id, remaining) == l[..i + 1] + Insert(l[i + 1..], id, remaining - l[i].delta)
  {
    assert l[i..][1..] == l[i + 1..];
    assert Insert(l[i..], id, remaining) == [l[i]] + Insert(l[i + 1..], id, remaining - l[i].delta);
    assert l[..i + 1] == l[..i] + [l[i]];
  }

  /** It stops in front of the first entry due later, which now waits only the difference. */
  lemma InsertStops(l: seq<Entry>, i: nat, id: nat, remaining: nat)
    requires i <= |l| && (i < |l| ==> l[i].delta > remaining)
    ensures var r := if i < |l| then l[i := Entry(l[i].id, l[i].delta - remaining)] else l;
            l[..i] + Insert(l[i..], id, remaining) == r[..i] + [Entry(id, remaining)] + r[i..]
  {
    if i < |l| {
      var r := l[i := Entry(l[i].id, l[i].delta - remaining)];
      assert l[i..][1..] == l[i + 1..] == r[i + 1..];
      assert r[i..] == [r[i]] + r[i + 1..];
      assert Insert(l[i..], id, remaining) == [Entry(id, remaining), r[i]] + r[i + 1..];
      assert r[..i] == l[..i];
    } else {
      assert l[..i] == l && l[i..] == [];
    }
  }

  /** Ticks from now until the entry named id is due; 0 when the list does not hold it. */
  function TicksLeft(l: seq<Entry>, id: nat): nat {
    if id !in Ids(l) then 0
    else if l[0].id == id then l[0].delta
    else l[0].delta + TicksLeft(l[1..], id)
  }

  lemma {:induction false} TicksLeftIsTheDeadline(l: seq<Entry>, id: nat, now: nat)
    requires id in Ids(l)
    ensures Due(id, now + TicksLeft(l, id)) in Timeline(l, now)
  {
    if l[0].id != id {
      TicksLeftIsTheDeadline(l[1..], id, now + l[0].delta);
    }
  }

  /** A new entry is due in exactly the ticks asked for, and nobody else's wait changes. */
  lemma {:induction false} InsertTicksLeft(l: seq<Entry>, id: nat, ticks: nat, x: nat)
    requires id !in Ids(l)
    ensures id in Ids(Insert(l, id, ticks)) && TicksLeft(Insert(l, id, ticks), id) == ticks
    ensures x != id ==> (x in Ids(Insert(l, id, ticks)) <==> x in Ids(l)) && TicksLeft(Insert(l, id, ticks), x) == TicksLeft(l, x)
  {
    if l != [] {
      var r := Insert(l, id, ticks);
      if l[0].delta > ticks {
        assert r[1..] == [Entry(l[0].id, l[0].delta - ticks)] + l[1..];
        assert r[1..][1..] == l[1..];
      } else {
        InsertTicksLeft(l[1..], id, ticks - l[0].delta, x);
        assert r[0] == l[0] && r[1..] == Insert(l[1..], id, ticks - l[0].delta);
      }
    }
  }

  /** Taking one entry out changes nobody else's wait. */
  lemma {:induction false} RemoveTicksLeft(l: seq<Entry>, id: nat, x: nat)
    requires x != id
    ensures (x in Ids(Remove(l, id)) <==> x in Ids(l)) && TicksLeft(Remove(l, id), x) == TicksLeft(l, x)
  {
    if l != [] {
      if l[0].id == id {
        if |l| > 1 { assert Remove(l, id)[1..] == l[1..][1..]; }
      } else {
        RemoveTicksLeft(l[1..], id, x);
        assert Remove(l, id)[1..] == Remove(l[1..], id);
      }
    }
  }

  /** Letting ticks pass takes exactly them off every wait that is longer, and ends the others. */
  lemma {:induction false} RemainingTicksLeft(l: seq<Entry>, ticks: nat, x: nat)
    requires x in Ids(l)
    ensures TicksLeft(l, x) > ticks ==> x in Ids(Remaining(l, ticks)) && TicksLeft(Remaining(l, ticks), x) == TicksLeft(l, x) - ticks
    ensures TicksLeft(l, x) <= ticks ==> x in Expired(l, ticks)
  {
    if l[0].delta > ticks {
      var r := Remaining(l, ticks);
      assert r[1..] == l[1..];
    } else if l[0].id != x {
      RemainingTicksLeft(l[1..], ticks - l[0].delta, x);
    }
  }

  /** What removal finds when the first entry with that name is at position i. */
  lemma {:induction false} RemoveHit(l: seq<Entry>, i: nat, id: nat)
    requires i < |l| && l[i].id == id
    requires forall j :: 0 <= j < i ==> l[j].id != id
    ensures Remove(l, id) == l[..i] + Handover(l[i..])
  {
    if i > 0 {
      var rest := l[1..];
      RemoveHit(rest, i - 1, id);
      assert l[i..] == rest[i - 1..];
      assert l[..i] == [l[0]] + rest[..i - 1];
    } else {
      assert l[0..] == l && l[..0] == [];
    }
  }

  lemma {:induction false} TicksLeftHit(l: seq<Entry>, i: nat, id: nat)
    requires i < |l| && l[i].id == id
    requires forall j :: 0 <= j < i ==> l[j].id != id
    ensures id in Ids(l) && TicksLeft(l, id) == Span(l[..i]) + l[i].delta
  {
    IdAt(l, i);
    if i > 0 {
      TicksLeftHit(l[1..], i - 1, id);
      assert l[..i][1..] == l[1..][..i - 1];
    }
  }

  lemma {:induction false} SpanSnoc(l: seq<Entry>, i: nat)
    requires i < |l|
    ensures Span(l[..i + 1]) == Span(l[..i]) + l[i].delta
  {
    if i > 0 {
      SpanSnoc(l[1..], i - 1);
      assert l[..i + 1][1..] == l[1..][..i] && l[..i][1..] == l[1..][..i - 1];
    }
  }

  lemma {:induction false} RemoveMiss(l: seq<Entry>, id: nat)
    requires id !in Ids(l)
    ensures Remove(l, id) == l
  {
    if l != [] {
      assert Ids(l) == [l[0].id] + Ids(l[1..]);
      RemoveMiss(l[1..], id);
    }
  }

  /** os_timer_running_remove: membership is found by the walk, the absolute remainder is summed on the
      way, and the removed share goes to the successor. */
  method RemoveWalk(l: seq<Entry>, id: nat) returns (r: seq<Entry>, found: bool, absolute: nat)
    ensures r == Remove(l, id)
    ensures found <==> id in Ids(l)
    ensures absolute == TicksLeft(l, id)
  {
    var i: nat, sum: nat := 0, 0;
    while i < |l| && l[i].id != id
      invariant i <= |l| && sum == Span(l[..i])
      invariant forall j :: 0 <= j < i ==> l[j].id != id
    {
      SpanSnoc(l, i);
      sum := sum + l[i].delta;
      i := i + 1;
    }
    found := i < |l|;
    if found {
      RemoveHit(l, i, id);
      TicksLeftHit(l, i, id);
      absolute := sum + l[i].delta;
      r := l[..i] + Handover(l[i..]);
    } else {
      forall j | 0 <= j < |l| ensures Ids(l)[j] == l[j].id { IdAt(l, j); }
      RemoveMiss(l, id);
      r, absolute := l, 0;
    }
  }
}
