/** Event flags (os_event.c): the setter evaluates every waiter against one snapshot, so what it delivers
    is fixed then and what it leaves behind is truly unsatisfied. */
module Events {

  type Bits = bv32

  /** A blocked waiter, its priority and the condition it published. */
  datatype Waiter = Waiter(id: nat, prio: nat, bits: Bits, all: bool, clear: bool)

  datatype Delivery = Delivery(id: nat, matched: Bits)

  /** The condition on the bits alone: all of them, or any. */
  predicate Holds(flags: Bits, bits: Bits, all: bool) { if all then flags & bits == bits else flags & bits != 0 }

  predicate Satisfied(flags: Bits, w: Waiter) { Holds(flags, w.bits, w.all) }

  /** Every flag of g is one of f. */
  predicate Fewer(g: Bits, f: Bits) { g & f == g }

  function Matched(flags: Bits, bits: Bits): Bits { flags & bits }
  function Cleared(flags: Bits, bits: Bits): Bits { flags & !bits }
  function Joined(a: Bits, b: Bits): Bits { a | b }

  // ---------- what one set does, read waiter by waiter ----------

  function Left(ws: seq<Waiter>, snapshot: Bits): seq<Waiter>
    decreases |ws|
  {
    if ws == [] then [] else (if Satisfied(snapshot, ws[0]) then [] else [ws[0]]) + Left(ws[1..], snapshot)
  }

  function Delivered(ws: seq<Waiter>, snapshot: Bits): seq<Delivery>
    decreases |ws|
  {
    if ws == [] then []
    else (if Satisfied(snapshot, ws[0]) then [Delivery(ws[0].id, Matched(snapshot, ws[0].bits))] else []) + Delivered(ws[1..], snapshot)
  }

  /** What a woken waiter that asked for it consumes. */
  function Taken(snapshot: Bits, w: Waiter): Bits { if Satisfied(snapshot, w) && w.clear then w.bits else 0 }

  function Consumed(ws: seq<Waiter>, snapshot: Bits): Bits
    decreases |ws|
  {
    if ws == [] then 0
    else Joined(Taken(snapshot, ws[0]), Consumed(ws[1..], snapshot))
  }

  /** Fewer flags satisfy nobody new. */
  lemma FewerBits(f: Bits, g: Bits, b: Bits)
    requires Fewer(g, f)
    ensures Holds(g, b, true) ==> Holds(f, b, true)
    ensures Holds(g, b, false) ==> Holds(f, b, false)
  {
  }

  lemma FewerFlags(flags: Bits, fewer: Bits, w: Waiter)
    requires Fewer(fewer, flags) && !Satisfied(flags, w)
    ensures !Satisfied(fewer, w)
  {
    hide Holds, Fewer;
    FewerBits(flags, fewer, w.bits);
    if w.all { assert !Holds(flags, w.bits, true); } else { assert !Holds(flags, w.bits, false); }
  }

  lemma ClearingIsFewer(f: Bits, c: Bits)
    ensures Fewer(Cleared(f, c), f)
  {
  }

  lemma JoinedIsAssociative(a: Bits, b: Bits, c: Bits)
    ensures Joined(Joined(a, b), c) == Joined(a, Joined(b, c)) && Joined(a, 0) == a && Joined(0, a) == a
  {
  }

  /** A satisfied waiter is owed a nonzero delivery. */
  lemma DeliveryIsNonzero(flags: Bits, bits: Bits, all: bool)
    requires Holds(flags, bits, all) && bits != 0
    ensures Matched(flags, bits) != 0
  {
  }

  /** Who is left is exactly who was not satisfied; every satisfied waiter gets its own match against the
      snapshot, whatever the others consume. */
  lemma {:induction false} SetSplits(ws: seq<Waiter>, snapshot: Bits)
    ensures forall w :: w in Left(ws, snapshot) <==> w in ws && !Satisfied(snapshot, w)
    ensures forall w :: w in ws && Satisfied(snapshot, w) ==> Delivery(w.id, Matched(snapshot, w.bits)) in Delivered(ws, snapshot)
    ensures forall d :: d in Delivered(ws, snapshot) ==> exists w :: w in ws && Satisfied(snapshot, w) && d == Delivery(w.id, Matched(snapshot, w.bits))
    ensures |Left(ws, snapshot)| + |Delivered(ws, snapshot)| == |ws|
    decreases |ws|
  {
    if ws != [] {
      SetSplits(ws[1..], snapshot);
      assert forall w :: w in ws <==> w == ws[0] || w in ws[1..];
      forall d | d in Delivered(ws, snapshot) ensures exists w :: w in ws && Satisfied(snapshot, w) && d == Delivery(w.id, Matched(snapshot, w.bits)) {
        if d !in Delivered(ws[1..], snapshot) {
          assert ws[0] in ws;
        }
      }
    }
  }

  lemma JoinedZero(a: Bits)
    ensures Joined(a, 0) == a && Joined(0, a) == a
  {
  }

  /** One more waiter at the end of the walk. */
  lemma {:induction false} WalkSnoc(ws: seq<Waiter>, w: Waiter, snapshot: Bits)
    ensures Left(ws + [w], snapshot) == Left(ws, snapshot) + (if Satisfied(snapshot, w) then [] else [w])
    ensures Delivered(ws + [w], snapshot)
         == Delivered(ws, snapshot) + (if Satisfied(snapshot, w) then [Delivery(w.id, Matched(snapshot, w.bits))] else [])
    decreases |ws|
  {
    hide Satisfied, Matched;
    if ws == [] {
      assert (ws + [w])[1..] == [];
    } else {
      assert (ws + [w])[1..] == ws[1..] + [w];
      WalkSnoc(ws[1..], w, snapshot);
    }
  }

  lemma {:induction false} ConsumedSnoc(ws: seq<Waiter>, w: Waiter, snapshot: Bits)
    ensures Consumed(ws + [w], snapshot) == Joined(Consumed(ws, snapshot), Taken(snapshot, w))
    decreases |ws|
  {
    hide Taken, Joined;
    if ws == [] {
      assert (ws + [w])[1..] == [];
      JoinedZero(Taken(snapshot, w));
    } else {
      assert (ws + [w])[1..] == ws[1..] + [w];
      ConsumedSnoc(ws[1..], w, snapshot);
      JoinedIsAssociative(Taken(snapshot, ws[0]), Consumed(ws[1..], snapshot), Taken(snapshot, w));
    }
  }

  lemma TakenIs(accum: Bits, snapshot: Bits, w: Waiter)
    ensures Joined(accum, Taken(snapshot, w)) == if Satisfied(snapshot, w) && w.clear then Joined(accum, w.bits) else accum
  {
    hide Satisfied, Joined;
    JoinedZero(accum);
  }

  lemma WalkNothing(snapshot: Bits, results: map<nat, Bits>)
    ensures Left([], snapshot) == [] && Delivered([], snapshot) == [] && Consumed([], snapshot) == 0 && Recorded(results, []) == results
  {
  }

  /** The results once these deliveries are stored, in order. */
  function Recorded(results: map<nat, Bits>, ds: seq<Delivery>): map<nat, Bits>
    decreases |ds|
  {
    if ds == [] then results
    else Recorded(results, ds[..|ds| - 1])[ds[|ds| - 1].id := ds[|ds| - 1].matched]
  }

  lemma RecordedSnoc(results: map<nat, Bits>, ds: seq<Delivery>, d: Delivery)
    ensures Recorded(results, ds + [d]) == Recorded(results, ds)[d.id := d.matched]
  {
    assert (ds + [d])[..|ds|] == ds;
  }

  /** A task nothing is delivered to keeps the result it had. */
  lemma {:induction false} RecordedKeeps(results: map<nat, Bits>, ds: seq<Delivery>, t: nat)
    requires forall d :: d in ds ==> d.id != t
    ensures t in Recorded(results, ds) <==> t in results
    ensures t in results ==> Recorded(results, ds)[t] == results[t]
    decreases |ds|
  {
    if ds != [] {
      var front := ds[..|ds| - 1];
      assert forall d :: d in front ==> d in ds;
      assert ds[|ds| - 1] in ds;
      RecordedKeeps(results, front, t);
    }
  }

  lemma {:induction false} RecordedNonzero(results: map<nat, Bits>, ds: seq<Delivery>)
    requires forall t :: t in results ==> results[t] != 0
    requires forall d :: d in ds ==> d.matched != 0
    ensures forall t :: t in Recorded(results, ds) ==> Recorded(results, ds)[t] != 0
    decreases |ds|
  {
    if ds != [] {
      var front := ds[..|ds| - 1];
      assert forall d :: d in front ==> d in ds;
      assert ds[|ds| - 1] in ds;
      RecordedNonzero(results, front);
    }
  }

  lemma {:induction false} NonzeroDeliveries(ws: seq<Waiter>, snapshot: Bits)
    requires forall w :: w in ws ==> w.bits != 0
    ensures forall d :: d in Delivered(ws, snapshot) ==> d.matched != 0
    decreases |ws|
  {
    if ws != [] {
      assert ws[0] in ws;
      assert forall w :: w in ws[1..] ==> w in ws;
      NonzeroDeliveries(ws[1..], snapshot);
      if Satisfied(snapshot, ws[0]) { DeliveryIsNonzero(snapshot, ws[0].bits, ws[0].all); }
    }
  }

  /** The walk of os_task_waiters_wake_match with os_event_waiter_match: every waiter against one
      snapshot; the satisfied ones leave with their result, the bits they consume are gathered. */
  method Walk(waiters: seq<Waiter>, snapshot: Bits, results0: map<nat, Bits>)
    returns (kept: seq<Waiter>, woken: seq<Delivery>, accum: Bits, results: map<nat, Bits>)
    ensures kept == Left(waiters, snapshot) && woken == Delivered(waiters, snapshot)
    ensures accum == Consumed(waiters, snapshot) && results == Recorded(results0, woken)
  {
    hide *;
    var i: nat := 0;
    kept, woken, accum, results := [], [], 0, results0;
    WalkNothing(snapshot, results0);
    while i < |waiters|
      invariant i <= |waiters|
      invariant kept == Left(waiters[..i], snapshot) && woken == Delivered(waiters[..i], snapshot)
      invariant accum == Consumed(waiters[..i], snapshot) && results == Recorded(results0, woken)
    {
      var w := waiters[i];
      WalkSnoc(waiters[..i], w, snapshot);
      ConsumedSnoc(waiters[..i], w, snapshot);
      TakenIs(accum, snapshot, w);
      assert waiters[..i + 1] == waiters[..i] + [w];
      if Satisfied(snapshot, w) {
        var d := Delivery(w.id, Matched(snapshot, w.bits));
        RecordedSnoc(results0, woken, d);
        woken := woken + [d];
        results := results[w.id := d.matched];
        if w.clear { accum := Joined(accum, w.bits); }
      } else {
        kept := kept + [w];
      }
      i := i + 1;
    }
    assert waiters[..i] == waiters;
  }

  // ---------- the event as one state ----------

  /** `results` is wait_result of every task that was delivered something since it last blocked. */
  datatype State = State(flags: Bits, waiters: seq<Waiter>, results: map<nat, Bits>)

  predicate Distinct(ws: seq<Waiter>) { forall i, j :: 0 <= i < j < |ws| ==> ws[i].id != ws[j].id }

  /** Nobody sleeps on a condition that holds, nobody waits twice or with a delivery in hand, and no
      delivery is empty. */
  ghost predicate Sound(s: State) {
    && (forall w :: w in s.waiters ==> w.bits != 0 && !Satisfied(s.flags, w))
    && Distinct(s.waiters) && (forall w :: w in s.waiters ==> w.id !in s.results)
    && (forall t :: t in s.results ==> s.results[t] != 0)
  }

  /** The place of a newcomer: in front of the first waiter of strictly lower priority. */
  function Placed(ws: seq<Waiter>, w: Waiter): seq<Waiter> {
    if ws == [] || ws[0].prio < w.prio then [w] + ws else [ws[0]] + Placed(ws[1..], w)
  }

  /** How long the caller is still willing to wait. */
  datatype Patience = Nothing | Spent | More

  datatype Status = Ok | BusyErr | TimedOut | Blocked

  datatype Step = Set(bits: Bits) | Clear(bits: Bits) | Wait(w: Waiter, patience: Patience) | Rearrange(others: seq<Waiter>)

  predicate Enabled(s: State, a: Step) {
    match a
    case Wait(w, _) => w.bits != 0 && forall x :: x in s.waiters ==> x.id != w.id
    case Rearrange(others) => multiset(others) <= multiset(s.waiters)
    case _ => true
  }

  function AfterSet(s: State, bits: Bits): State {
    var snapshot := Joined(s.flags, bits);
    State(Cleared(snapshot, Consumed(s.waiters, snapshot)), Left(s.waiters, snapshot), Recorded(s.results, Delivered(s.waiters, snapshot)))
  }

  function AfterWait(s: State, w: Waiter, patience: Patience): State {
    if Satisfied(s.flags, w) then (if w.clear then s.(flags := Cleared(s.flags, w.bits)) else s)
    else if patience != More then s
    else s.(waiters := Placed(s.waiters, w), results := s.results - {w.id})
  }

  function After(s: State, a: Step): State {
    match a
    case Set(bits) => AfterSet(s, bits)
    case Clear(bits) => s.(flags := Cleared(s.flags, bits))
    case Wait(w, patience) => AfterWait(s, w, patience)
    case Rearrange(others) => s.(waiters := others)
  }

  lemma {:induction false} PlacedSplits(ws: seq<Waiter>, w: Waiter) returns (i: nat)
    ensures i <= |ws| && Placed(ws, w) == ws[..i] + [w] + ws[i..]
    ensures forall j :: 0 <= j < i ==> ws[j].prio >= w.prio
    ensures i < |ws| ==> ws[i].prio < w.prio
    decreases |ws|
  {
    if ws == [] || ws[0].prio < w.prio {
      i := 0;
    } else {
      var j := PlacedSplits(ws[1..], w);
      i := j + 1;
      assert ws[..i] == [ws[0]] + ws[1..][..j] && ws[i..] == ws[1..][j..];
    }
  }

  lemma {:induction false} DistinctCounts(ws: seq<Waiter>, w: Waiter)
    requires Distinct(ws)
    ensures multiset(ws)[w] <= 1
    decreases |ws|
  {
    if ws != [] {
      assert ws == [ws[0]] + ws[1..];
      DistinctCounts(ws[1..], w);
      if w == ws[0] { assert w !in ws[1..]; }
    }
  }

  lemma SameIdSameWaiter(ws: seq<Waiter>, w: Waiter, x: Waiter)
    requires Distinct(ws) && w in ws && x in ws && w.id == x.id
    ensures w == x
  {
  }

  lemma TwiceCounts(ws: seq<Waiter>, i: nat, j: nat)
    requires i < j < |ws| && ws[i] == ws[j]
    ensures multiset(ws)[ws[i]] >= 2
  {
    assert ws == ws[..j] + [ws[j]] + ws[j + 1..];
    assert ws[..j][i] == ws[i];
  }

  /** Some of a list, in any order. */
  lemma SomeOfDistinct(some: seq<Waiter>, ws: seq<Waiter>)
    requires Distinct(ws) && multiset(some) <= multiset(ws)
    ensures Distinct(some) && forall w :: w in some ==> w in ws
  {
    forall w | w in some ensures w in ws { assert multiset(some)[w] > 0; }
    forall i, j | 0 <= i < j < |some| ensures some[i].id != some[j].id {
      if some[i].id == some[j].id {
        SameIdSameWaiter(ws, some[i], some[j]);
        TwiceCounts(some, i, j);
        DistinctCounts(ws, some[i]);
        assert false;
      }
    }
  }

  /** The waiters a set leaves behind, and the ids it delivers to. */
  lemma {:induction false} LeftDistinct(ws: seq<Waiter>, snapshot: Bits)
    requires Distinct(ws)
    ensures Distinct(Left(ws, snapshot))
    ensures forall d, w :: d in Delivered(ws, snapshot) && w in Left(ws, snapshot) ==> d.id != w.id
    decreases |ws|
  {
    SetSplits(ws, snapshot);
    hide Satisfied, Matched;
    if ws != [] {
      LeftDistinct(ws[1..], snapshot);
      SetSplits(ws[1..], snapshot);
      assert forall w :: w in ws[1..] ==> w.id != ws[0].id;
      assert forall d :: d in Delivered(ws[1..], snapshot) ==> d.id != ws[0].id;
    }
  }

  lemma {:induction false} RecordedKeys(results: map<nat, Bits>, ds: seq<Delivery>, t: nat)
    ensures t in Recorded(results, ds) <==> t in results || exists d :: d in ds && d.id == t
    decreases |ds|
  {
    if ds != [] {
      var n := |ds| - 1;
      RecordedKeys(results, ds[..n], t);
      assert forall d :: d in ds <==> d in ds[..n] || d == ds[n];
    }
  }

  /** Several deliveries, each to another task: each task has its own. */
  lemma {:induction false} EachHasItsOwn(ws: seq<Waiter>, snapshot: Bits, results: map<nat, Bits>, w: Waiter)
    requires Distinct(ws) && w in ws && Satisfied(snapshot, w)
    ensures var r := Recorded(results, Delivered(ws, snapshot)); w.id in r && r[w.id] == Matched(snapshot, w.bits)
    decreases |ws|
  {
    hide Satisfied, Matched;
    var n := |ws| - 1;
    var x := ws[n];
    assert ws == ws[..n] + [x];
    WalkSnoc(ws[..n], x, snapshot);
    var ds := Delivered(ws[..n], snapshot);
    if Satisfied(snapshot, x) { RecordedSnoc(results, ds, Delivery(x.id, Matched(snapshot, x.bits))); } else { assert ds + [] == ds; }
    if w != x {
      var a :| 0 <= a < |ws| && ws[a] == w;
      assert ws[..n][a] == w;
      EachHasItsOwn(ws[..n], snapshot, results, w);
    }
  }

  lemma SetSound(s: State, bits: Bits)
    requires Sound(s)
    ensures Sound(AfterSet(s, bits))
  {
    var snapshot := Joined(s.flags, bits);
    var accum := Consumed(s.waiters, snapshot);
    var ds := Delivered(s.waiters, snapshot);
    hide Holds, Fewer, Matched, Cleared, Joined, Satisfied, Recorded, Distinct;
    SetSplits(s.waiters, snapshot);
    NonzeroDeliveries(s.waiters, snapshot);
    RecordedNonzero(s.results, ds);
    LeftDistinct(s.waiters, snapshot);
    ClearingIsFewer(snapshot, accum);
    forall w | w in Left(s.waiters, snapshot) ensures !Satisfied(Cleared(snapshot, accum), w) && w.id !in Recorded(s.results, ds) {
      FewerFlags(snapshot, Cleared(snapshot, accum), w);
      RecordedKeys(s.results, ds, w.id);
    }
  }

  lemma FewerFlagsSound(s: State, bits: Bits)
    requires Sound(s)
    ensures Sound(s.(flags := Cleared(s.flags, bits)))
  {
    hide Holds, Fewer, Cleared, Satisfied, Distinct;
    ClearingIsFewer(s.flags, bits);
    forall w | w in s.waiters ensures !Satisfied(Cleared(s.flags, bits), w) { FewerFlags(s.flags, Cleared(s.flags, bits), w); }
  }

  lemma WaitSound(s: State, w: Waiter, patience: Patience)
    requires Sound(s) && Enabled(s, Wait(w, patience))
    ensures Sound(AfterWait(s, w, patience))
  {
    hide Holds, Cleared, Satisfied;
    if Satisfied(s.flags, w) {
      FewerFlagsSound(s, w.bits);
    } else if patience == More {
      var i := PlacedSplits(s.waiters, w);
      var ws := Placed(s.waiters, w);
      hide Placed;
      forall x | x in ws ensures x == w || x in s.waiters {}
    }
  }

  lemma StepSound(s: State, a: Step)
    requires Sound(s) && Enabled(s, a)
    ensures Sound(After(s, a))
  {
    hide AfterSet, AfterWait, Satisfied, Cleared, Distinct;
    match a
    case Set(bits) => SetSound(s, bits);
    case Clear(bits) => FewerFlagsSound(s, bits);
    case Wait(w, patience) => WaitSound(s, w, patience);
    case Rearrange(others) => SomeOfDistinct(others, s.waiters);
  }

  // ---------- whole runs ----------

  predicate IsRun(s: State, steps: seq<Step>)
    decreases |steps|
  {
    steps == [] || (Enabled(s, steps[0]) && IsRun(After(s, steps[0]), steps[1..]))
  }

  function AfterAll(s: State, steps: seq<Step>): State
    decreases |steps|
  {
    if steps == [] then s else AfterAll(After(s, steps[0]), steps[1..])
  }

  /** Over any run nobody is left asleep on a condition that holds. */
  lemma {:induction false} EveryRunIsSound(s: State, steps: seq<Step>)
    requires Sound(s) && IsRun(s, steps)
    ensures Sound(AfterAll(s, steps))
    decreases |steps|
  {
    hide Sound, After, Enabled;
    if steps != [] {
      StepSound(s, steps[0]);
      EveryRunIsSound(After(s, steps[0]), steps[1..]);
    }
  }

  /** One step that is no wait of t: what t was delivered stands. */
  lemma StepKeepsDelivery(s: State, a: Step, t: nat)
    requires Sound(s) && Enabled(s, a) && t in s.results && !(a.Wait? && a.w.id == t)
    ensures var s' := After(s, a); t in s'.results && s'.results[t] == s.results[t]
  {
    if a.Set? {
      var snapshot := Joined(s.flags, a.bits);
      var ds := Delivered(s.waiters, snapshot);
      hide Joined, Satisfied, Matched, Recorded, Distinct;
      SetSplits(s.waiters, snapshot);
      assert forall d :: d in ds ==> d.id != t;
      RecordedKeeps(s.results, ds, t);
    }
  }

  /** A delivery is not revoked: over any run of sets, clears, waits and departures it stays, unchanged and
      nonzero, until that task itself waits again. */
  lemma {:induction false} DeliveryStands(s: State, steps: seq<Step>, t: nat)
    requires Sound(s) && IsRun(s, steps) && t in s.results
    requires forall i :: 0 <= i < |steps| && steps[i].Wait? ==> steps[i].w.id != t
    ensures var s' := AfterAll(s, steps); Sound(s') && t in s'.results && s'.results[t] == s.results[t] != 0
    decreases |steps|
  {
    hide After, Enabled;
    if steps != [] {
      StepSound(s, steps[0]);
      StepKeepsDelivery(s, steps[0], t);
      var rest := steps[1..];
      assert forall i :: 0 <= i < |rest| ==> rest[i] == steps[i + 1];
      DeliveryStands(After(s, steps[0]), rest, t);
    }
  }

  /** A set that satisfies a waiter, and whatever follows before that task waits again: it still finds the
      bits it matched in the setter's snapshot. */
  lemma SetterDecides(s: State, bits: Bits, w: Waiter, steps: seq<Step>)
    requires Sound(s) && w in s.waiters && Satisfied(Joined(s.flags, bits), w) && IsRun(AfterSet(s, bits), steps)
    requires forall i :: 0 <= i < |steps| && steps[i].Wait? ==> steps[i].w.id != w.id
    ensures var s' := AfterAll(AfterSet(s, bits), steps);
            w.id in s'.results && s'.results[w.id] == Matched(Joined(s.flags, bits), w.bits)
  {
    hide Joined, Satisfied, Matched, IsRun, AfterAll;
    SetSound(s, bits);
    EachHasItsOwn(s.waiters, Joined(s.flags, bits), s.results, w);
    DeliveryStands(AfterSet(s, bits), steps, w.id);
  }

  // ---------- flag by flag ----------

  /** A single flag. */
  predicate IsFlag(m: Bits) { m != 0 && m & (m - 1) == 0 }

  /** Some flag of m is up; for a single flag, that one. */
  predicate Up(flags: Bits, m: Bits) { flags & m != 0 }

  /** All flags of m are up. */
  predicate AllUp(flags: Bits, m: Bits) { flags & m == m }

  lemma NeitherUp(a: Bits, b: Bits, m: Bits)
    requires a & m == 0 && b & m == 0
    ensures Joined(a, b) & m == 0
  {
  }

  lemma JoinedKeeps(a: Bits, b: Bits, m: Bits)
    requires Joined(a, b) & m == 0
    ensures a & m == 0 && b & m == 0
  {
  }

  lemma JoinedUp(a: Bits, b: Bits, m: Bits)
    ensures Up(Joined(a, b), m) <==> Up(a, m) || Up(b, m)
  {
    hide Joined;
    if a & m == 0 && b & m == 0 { NeitherUp(a, b, m); }
    if Joined(a, b) & m == 0 { JoinedKeeps(a, b, m); }
  }

  /** A single flag is up or not: there is no half. */
  lemma WholeFlag(f: Bits, m: Bits)
    requires IsFlag(m)
    ensures Up(f, m) <==> AllUp(f, m)
  {
  }

  lemma ClearedApart(f: Bits, c: Bits, m: Bits)
    requires c & m == 0
    ensures Cleared(f, c) & m == f & m
  {
  }

  lemma ClearedElsewhere(f: Bits, c: Bits, m: Bits)
    requires !Up(c, m)
    ensures Up(Cleared(f, c), m) <==> Up(f, m)
  {
    hide Cleared;
    ClearedApart(f, c, m);
  }

  lemma ClearedHere(f: Bits, c: Bits, m: Bits)
    requires AllUp(c, m)
    ensures !Up(Cleared(f, c), m)
  {
  }

  lemma ClearedUp(f: Bits, c: Bits, m: Bits)
    requires IsFlag(m)
    ensures Up(Cleared(f, c), m) <==> Up(f, m) && !Up(c, m)
  {
    hide *;
    WholeFlag(c, m);
    if Up(c, m) { ClearedHere(f, c, m); } else { ClearedElsewhere(f, c, m); }
  }

  lemma Lowest(x: Bits)
    requires x != 0
    ensures IsFlag(x & (!x + 1)) && x & (x & (!x + 1)) == x & (!x + 1)
  {
  }

  /** Every nonzero word has a flag that is up. */
  lemma SomeFlag(x: Bits) returns (m: Bits)
    requires x != 0
    ensures IsFlag(m) && AllUp(x, m)
  {
    Lowest(x);
    m := x & (!x + 1);
  }

  lemma OfBoth(f: Bits, b: Bits, m: Bits)
    requires AllUp(Matched(f, b), m) && m != 0
    ensures Up(b, m) && Up(f, m)
  {
  }

  lemma OfOne(f: Bits, b: Bits, m: Bits)
    requires AllUp(Cleared(b, f), m) && m != 0
    ensures Up(b, m) && !Up(f, m)
  {
  }

  lemma FlagIsSome(m: Bits)
    requires IsFlag(m)
    ensures m != 0
  {
  }

  lemma SharedWord(f: Bits, b: Bits)
    requires Holds(f, b, false)
    ensures Matched(f, b) != 0
  {
  }

  lemma CommonFlag(f: Bits, b: Bits) returns (m: Bits)
    requires Holds(f, b, false)
    ensures IsFlag(m) && Up(b, m) && Up(f, m)
  {
    hide *;
    SharedWord(f, b);
    m := SomeFlag(Matched(f, b));
    FlagIsSome(m);
    OfBoth(f, b, m);
  }

  lemma SomeMissing(f: Bits, b: Bits)
    requires !Holds(f, b, true)
    ensures Cleared(b, f) != 0
  {
  }

  lemma MissingFlag(f: Bits, b: Bits) returns (m: Bits)
    requires !Holds(f, b, true)
    ensures IsFlag(m) && Up(b, m) && !Up(f, m)
  {
    hide *;
    SomeMissing(f, b);
    m := SomeFlag(Cleared(b, f));
    FlagIsSome(m);
    OfOne(f, b, m);
  }

  lemma NamedIsUp(f: Bits, b: Bits, m: Bits)
    requires Holds(f, b, true) && Up(b, m)
    ensures Up(f, m)
  {
  }

  lemma SharedHolds(f: Bits, b: Bits, m: Bits)
    requires AllUp(f, m) && AllUp(b, m) && m != 0
    ensures Holds(f, b, false)
  {
  }

  lemma OwnFlagHolds(f: Bits, m: Bits)
    requires AllUp(f, m)
    ensures Holds(f, m, true)
  {
  }

  /** A condition holds when every flag it names is up, or any. */
  lemma HoldsMeans(f: Bits, b: Bits)
    ensures Holds(f, b, true) <==> forall m :: IsFlag(m) && Up(b, m) ==> Up(f, m)
    ensures Holds(f, b, false) <==> exists m :: IsFlag(m) && Up(b, m) && Up(f, m)
  {
    hide *;
    forall m | IsFlag(m) && Up(b, m)
      ensures Holds(f, b, true) ==> Up(f, m)
      ensures Up(f, m) ==> Holds(f, b, false)
    {
      WholeFlag(f, m);
      WholeFlag(b, m);
      FlagIsSome(m);
      if Holds(f, b, true) { NamedIsUp(f, b, m); }
      if Up(f, m) { SharedHolds(f, b, m); }
    }
    if !Holds(f, b, true) { var m := MissingFlag(f, b); }
    if Holds(f, b, false) { var m := CommonFlag(f, b); }
  }

  /** A waiter the snapshot satisfies takes flag m with it. */
  ghost predicate Takes(ws: seq<Waiter>, snapshot: Bits, m: Bits) {
    exists w :: w in ws && w.clear && Holds(snapshot, w.bits, w.all) && Up(w.bits, m)
  }

  lemma NothingUp(m: Bits)
    ensures !Up(0, m)
  {
  }

  lemma TakenUp(snapshot: Bits, w: Waiter, m: Bits)
    ensures Up(Taken(snapshot, w), m) <==> w.clear && Holds(snapshot, w.bits, w.all) && Up(w.bits, m)
  {
    hide Holds, Up;
    NothingUp(m);
  }

  lemma ConsumedIs(ws: seq<Waiter>, snapshot: Bits)
    ensures Consumed(ws, snapshot) == if ws == [] then 0 else Joined(Taken(snapshot, ws[0]), Consumed(ws[1..], snapshot))
  {
    hide Taken, Joined;
  }

  lemma {:induction false} ConsumedUp(ws: seq<Waiter>, snapshot: Bits, m: Bits)
    ensures Up(Consumed(ws, snapshot), m) <==> Takes(ws, snapshot, m)
    decreases |ws|
  {
    hide Consumed, Holds, Up, Joined, Taken;
    ConsumedIs(ws, snapshot);
    if ws == [] {
      NothingUp(m);
    } else {
      ConsumedUp(ws[1..], snapshot, m);
      TakenUp(snapshot, ws[0], m);
      JoinedUp(Taken(snapshot, ws[0]), Consumed(ws[1..], snapshot), m);
      assert ws[0] in ws && forall w :: w in ws <==> w == ws[0] || w in ws[1..];
    }
  }

  lemma SetFlagsIs(s: State, bits: Bits)
    ensures AfterSet(s, bits).flags == Cleared(Joined(s.flags, bits), Consumed(s.waiters, Joined(s.flags, bits)))
    ensures AfterSet(s, bits).waiters == Left(s.waiters, Joined(s.flags, bits))
    ensures AfterSet(s, bits).results == Recorded(s.results, Delivered(s.waiters, Joined(s.flags, bits)))
  {
    hide Cleared, Joined, Consumed, Left, Recorded, Delivered;
  }

  /** What a set leaves, flag by flag: up are the flags that were up or are set now, but for those a waiter woken
      by this set takes with it. */
  lemma SetLeaves(s: State, bits: Bits, m: Bits)
    requires IsFlag(m)
    ensures Up(AfterSet(s, bits).flags, m) <==> (Up(s.flags, m) || Up(bits, m)) && !Takes(s.waiters, Joined(s.flags, bits), m)
  {
    hide *;
    var snapshot := Joined(s.flags, bits);
    SetFlagsIs(s, bits);
    JoinedUp(s.flags, bits, m);
    ClearedUp(snapshot, Consumed(s.waiters, snapshot), m);
    ConsumedUp(s.waiters, snapshot, m);
  }

  /** A flag just set that no woken waiter takes is there for the next caller: a wait for it, alone or among
      others of which any will do, succeeds at once. */
  lemma SetIsSeen(s: State, bits: Bits, m: Bits, w: Waiter)
    requires IsFlag(m) && Up(bits, m) && !Takes(s.waiters, Joined(s.flags, bits), m)
    requires if w.all then w.bits == m else Up(w.bits, m)
    ensures Satisfied(AfterSet(s, bits).flags, w)
  {
    var f := AfterSet(s, bits).flags;
    hide AfterSet, Takes, Up, AllUp, Holds, IsFlag;
    SetLeaves(s, bits, m);
    WholeFlag(f, m);
    FlagIsSome(m);
    if w.all { OwnFlagHolds(f, m); } else { WholeFlag(w.bits, m); SharedHolds(f, w.bits, m); }
  }

  lemma MatchedNone(f: Bits, b: Bits, m: Bits)
    requires !Up(f, m) || !Up(b, m)
    ensures !Up(Matched(f, b), m)
  {
    if f & m == 0 {} else { assert b & m == 0; }
  }

  lemma MatchedAll(f: Bits, b: Bits, m: Bits)
    requires AllUp(f, m) && AllUp(b, m)
    ensures AllUp(Matched(f, b), m)
  {
  }

  lemma MatchedUp(f: Bits, b: Bits, m: Bits)
    requires IsFlag(m)
    ensures Up(Matched(f, b), m) <==> Up(f, m) && Up(b, m)
  {
    hide *;
    WholeFlag(f, m);
    WholeFlag(b, m);
    WholeFlag(Matched(f, b), m);
    if Up(f, m) && Up(b, m) { MatchedAll(f, b, m); } else { MatchedNone(f, b, m); }
  }

  /** Each waiter the set satisfies leaves with the flags it named that are up once the set's are, whatever
      others take. */
  lemma SetDelivers(s: State, bits: Bits, w: Waiter, m: Bits)
    requires Sound(s) && w in s.waiters && Satisfied(Joined(s.flags, bits), w) && IsFlag(m)
    ensures var s' := AfterSet(s, bits);
            w !in s'.waiters && w.id in s'.results && (Up(s'.results[w.id], m) <==> (Up(s.flags, m) || Up(bits, m)) && Up(w.bits, m))
  {
    hide *;
    SetFlagsIs(s, bits);
    SoundIsDistinct(s);
    var snapshot := Joined(s.flags, bits);
    EachHasItsOwn(s.waiters, snapshot, s.results, w);
    SetSplits(s.waiters, snapshot);
    MatchedUp(snapshot, w.bits, m);
    JoinedUp(s.flags, bits, m);
  }

  lemma SoundIsDistinct(s: State)
    requires Sound(s)
    ensures Distinct(s.waiters)
  {
  }

  /** A clear takes exactly the flags named; so does a wait that matches and asks for it, and no other wait. */
  lemma ClearLeaves(s: State, bits: Bits, w: Waiter, patience: Patience, m: Bits)
    requires IsFlag(m)
    ensures Up(After(s, Clear(bits)).flags, m) <==> Up(s.flags, m) && !Up(bits, m)
    ensures Up(AfterWait(s, w, patience).flags, m) <==> Up(s.flags, m) && !(w.clear && Holds(s.flags, w.bits, w.all) && Up(w.bits, m))
  {
    hide IsFlag, Cleared, Holds, Placed, Up;
    ClearedUp(s.flags, bits, m);
    ClearedUp(s.flags, w.bits, m);
  }

  /** The caller is about to block. */
  predicate Blocks(s: State, w: Waiter, patience: Patience) { !Holds(s.flags, w.bits, w.all) && patience == More }

  /** Position i of the list is w's, behind everyone at least as urgent and in front of all others. */
  predicate StandsAt(ws: seq<Waiter>, w: Waiter, i: nat) {
    && i < |ws| && ws[i] == w && (forall j :: 0 <= j < i ==> ws[j].prio >= w.prio) && (i + 1 < |ws| ==> ws[i + 1].prio < w.prio)
  }

  /** One pass of a wait: a condition that holds is answered at once; one that does not, from a caller that will
      wait, puts it in its place in the list, with no delivery yet; anybody else leaves no trace. */
  lemma WaitOutcome(s: State, w: Waiter, patience: Patience) returns (i: nat)
    ensures Blocks(s, w, patience) ==>
            var s' := AfterWait(s, w, patience);
            && StandsAt(s'.waiters, w, i) && s'.waiters[..i] + s'.waiters[i + 1..] == s.waiters
            && s'.flags == s.flags && s'.results == s.results - {w.id}
    ensures !Blocks(s, w, patience) ==>
            var s' := AfterWait(s, w, patience);
            && s'.waiters == s.waiters && s'.results == s.results && (!Holds(s.flags, w.bits, w.all) ==> s' == s)
  {
    hide Holds, Cleared;
    i := 0;
    if Blocks(s, w, patience) {
      i := PlacedSplits(s.waiters, w);
      var ws := Placed(s.waiters, w);
      hide Placed;
      assert ws[i] == w && ws[..i] == s.waiters[..i] && ws[i + 1..] == s.waiters[i..];
      assert ws[..i] + ws[i + 1..] == s.waiters;
      if i < |s.waiters| { assert ws[i + 1] == s.waiters[i]; }
    }
  }

  class Event {
    var flags: Bits
    var waiters: seq<Waiter>
    var results: map<nat, Bits>

    ghost predicate Valid()
      reads this
    {
      Sound(View())
    }

    ghost function View(): State
      reads this
    {
      State(flags, waiters, results)
    }

    constructor ()
      ensures Valid() && View() == State(0, [], map[])
    {
      flags, waiters, results := 0, [], map[];
    }

    /** os_task_waiters_wake_match on the event's list. */
    method WakeMatch(snapshot: Bits) returns (woken: seq<Delivery>, accum: Bits)
      modifies this`waiters, this`results
      ensures waiters == Left(old(waiters), snapshot) && woken == Delivered(old(waiters), snapshot)
      ensures accum == Consumed(old(waiters), snapshot) && results == Recorded(old(results), woken)
    {
      waiters, woken, accum, results := Walk(waiters, snapshot, results);
    }

    /** os_event_set_bits: consumption after the walk, so several waiters satisfied by the same set all get
        their delivery. */
    method SetBits(bits: Bits) returns (woken: seq<Delivery>)
      requires Valid()
      modifies this
      ensures Valid() && View() == AfterSet(old(View()), bits)
      ensures woken == Delivered(old(waiters), Joined(old(flags), bits)) && forall d :: d in woken ==> d.matched != 0
      ensures forall m :: IsFlag(m) ==>
        (Up(flags, m) <==> (Up(old(flags), m) || Up(bits, m)) && !Takes(old(waiters), Joined(old(flags), bits), m))
    {
      forall m | IsFlag(m)
        ensures Up(AfterSet(View(), bits).flags, m)
           <==> (Up(flags, m) || Up(bits, m)) && !Takes(waiters, Joined(flags, bits), m)
      {
        SetLeaves(View(), bits, m);
      }
      SetSound(View(), bits);
      NonzeroDeliveries(waiters, Joined(flags, bits));
      hide Joined, Cleared, Sound, IsFlag, Up, Takes;
      flags := Joined(flags, bits);
      var accum;
      woken, accum := WakeMatch(flags);
      flags := Cleared(flags, accum);
    }

    /** os_event_clear_bits. */
    method ClearBits(bits: Bits)
      requires Valid()
      modifies this`flags
      ensures Valid() && View() == After(old(View()), Clear(bits))
      ensures forall m :: IsFlag(m) ==> (Up(flags, m) <==> Up(old(flags), m) && !Up(bits, m))
    {
      FewerFlagsSound(View(), bits);
      hide Cleared, Sound, IsFlag, Up;
      forall m | IsFlag(m) ensures Up(Cleared(flags, bits), m) <==> Up(flags, m) && !Up(bits, m) { ClearedUp(flags, bits, m); }
      flags := Cleared(flags, bits);
    }

    /** os_task_wait_node_insert on the event's list. */
    method Insert(w: Waiter)
      modifies this`waiters
      ensures waiters == Placed(old(waiters), w)
    {
      var i: nat := 0;
      ghost var place := PlacedSplits(waiters, w);
      while i < |waiters| && waiters[i].prio >= w.prio
        invariant i <= place && waiters == old(waiters)
      {
        i := i + 1;
      }
      hide Placed;
      waiters := waiters[..i] + [w] + waiters[i..];
    }

    /** One pass of os_event_wait_bits under the lock: match, and consume if asked; give up; or publish the
        condition and block. */
    method WaitBits(w: Waiter, patience: Patience) returns (status: Status, bits: Bits)
      requires Valid() && Enabled(View(), Wait(w, patience))
      modifies this
      ensures Valid() && View() == AfterWait(old(View()), w, patience)
      ensures bits == Matched(old(flags), w.bits) && (status == Ok <==> Satisfied(old(flags), w))
      ensures status != Ok ==> status == match patience { case Nothing => BusyErr case Spent => TimedOut case More => Blocked }
      ensures status == Blocked <==> w in waiters
    {
      assert w !in waiters;
      WaitSound(View(), w, patience);
      bits := Matched(flags, w.bits);
      var matched := if w.all then bits == w.bits else bits != 0;
      assert matched == Satisfied(flags, w);
      hide Satisfied, Cleared, Matched, Sound;
      if matched {
        if w.clear { flags := Cleared(flags, w.bits); }
        status := Ok;
      } else if patience == Nothing {
        status := BusyErr;
      } else if patience == Spent {
        status := TimedOut;
      } else {
        results := results - {w.id};
        ghost var place := PlacedSplits(waiters, w);
        Insert(w);
        assert waiters[place] == w;
        status := Blocked;
      }
    }

    /** The resumed half of a pass: nothing signaled is a timeout; a delivery is reported as it is; any other
        wake goes round again. */
    method Resumed(id: nat, signaled: bool) returns (status: Status, bits: Bits)
      requires Valid()
      ensures !signaled ==> status == TimedOut
      ensures signaled ==> (status == Ok <==> id in results) && (status == Ok ==> bits == results[id] && bits != 0)
      ensures signaled && status != Ok ==> status == Blocked
    {
      status, bits := TimedOut, 0;
      if signaled {
        bits := if id in results then results[id] else 0;
        status := if bits != 0 then Ok else Blocked;
      }
    }
  }
}
