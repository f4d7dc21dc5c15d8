/** How the kernel's lists and control blocks name each other, and what every operation leaves of
    that: the structure on which inheritance, waking and deadlock detection all rest. */
module Links {
  import opened Sequences
  import opened Kernel

  function Queued(k: State, q: WaitQ, t: Task): nat { multiset(WaitersOf(k, q))[t] }
  function Held(k: State, o: Task, m: Mutex): nat { multiset(T(k, o).owned)[m] }

  /** The mutex edge a TCB must carry, given the list it is queued on. */
  function EdgeOf(q: Option<WaitQ>): Option<Mutex> {
    if q.Some? && q.value.OfMutex? then Some(q.value.id) else None
  }

  /** A task is linked into exactly the waiter list its TCB names, once; only a blocked task is. */
  ghost predicate WaitersLinked(k: State) {
    && IDLE !in k.tcb
    && (forall q, t :: Queued(k, q, t) == if T(k, t).waitList == Some(q) then 1 else 0)
    && (forall t :: EdgeConsistent(T(k, t)))
  }

  /** The wait edge follows the list, and an inheritance debt exists only inside a mutex wait. */
  predicate EdgeConsistent(r: Tcb) {
    && (r.waitList.Some? ==> r.state == Blocked && r.doing == r.waitList)
    && r.blockedOn == EdgeOf(r.waitList)
    && (EdgeOf(r.doing).None? ==> r.piOwner == 0 && !r.blockedForever)
  }

  /** A mutex is on exactly its owner's owned list, once; it is locked exactly when it has an owner. */
  ghost predicate OwnersLinked(k: State) {
    && (forall o, m :: Held(k, o, m) == if o != 0 && M(k, m).locked && M(k, m).owner == o then 1 else 0)
    && (forall m :: M(k, m).locked <==> M(k, m).owner != 0)
  }

  /** Descending effective priority. */
  predicate SortedList(tcb: map<Task, Tcb>, ws: seq<Task>) {
    |ws| <= 1 || (P(tcb, ws[0]) >= P(tcb, ws[1]) && SortedList(tcb, ws[1..]))
  }

  ghost predicate Sorted(k: State) { forall q :: SortedList(k.tcb, WaitersOf(k, q)) }

  /** The structural invariant of every kernel state. */
  ghost predicate Linked(k: State) { WaitersLinked(k) && OwnersLinked(k) && Sorted(k) }

  // ---------- sorted waiter lists ----------

  lemma {:induction false} HeadIsHighest(tcb: map<Task, Tcb>, ws: seq<Task>, w: Task)
    requires SortedList(tcb, ws) && w in ws
    ensures P(tcb, ws[0]) >= P(tcb, w)
  {
    if w != ws[0] {
      HeadIsHighest(tcb, ws[1..], w);
    }
  }

  lemma {:induction false} SortedSame(tcb: map<Task, Tcb>, tcb': map<Task, Tcb>, ws: seq<Task>)
    requires forall w :: w in ws ==> P(tcb', w) == P(tcb, w)
    ensures SortedList(tcb', ws) == SortedList(tcb, ws)
  {
    if |ws| > 1 {
      SortedSame(tcb, tcb', ws[1..]);
    }
  }

  lemma {:induction false} RankedCounts(tcb: map<Task, Tcb>, ws: seq<Task>, t: Task)
    ensures multiset(Ranked(tcb, ws, t)) == multiset(ws) + multiset{t}
  {
    if ws != [] {
      assert ws == [ws[0]] + ws[1..];
      RankedCounts(tcb, ws[1..], t);
    }
  }

  lemma {:induction false} SortedWithout(tcb: map<Task, Tcb>, ws: seq<Task>, t: Task)
    requires SortedList(tcb, ws)
    ensures SortedList(tcb, Without(ws, t))
  {
    if ws != [] && ws[0] != t {
      SortedWithout(tcb, ws[1..], t);
      assert Without(ws, t)[1..] == Without(ws[1..], t);
    }
  }

  /** Joining a sorted list keeps it sorted, behind every equal and before every lower priority. */
  lemma {:induction false} RankedPlaces(tcb: map<Task, Tcb>, ws: seq<Task>, t: Task) returns (i: nat)
    requires SortedList(tcb, ws)
    ensures i <= |ws| && Ranked(tcb, ws, t) == ws[..i] + [t] + ws[i..]
    ensures forall j :: 0 <= j < i ==> P(tcb, ws[j]) >= P(tcb, t)
    ensures forall j :: i <= j < |ws| ==> P(tcb, ws[j]) < P(tcb, t)
  {
    if ws == [] {
      i := 0;
    } else if P(tcb, ws[0]) < P(tcb, t) {
      i := 0;
      forall j | 0 <= j < |ws| ensures P(tcb, ws[j]) < P(tcb, t) { HeadIsHighest(tcb, ws, ws[j]); }
    } else {
      var j := RankedPlaces(tcb, ws[1..], t);
      i := j + 1;
      assert ws[..i] == [ws[0]] + ws[1..][..j];
    }
  }

  lemma {:induction false} RankedSorts(tcb: map<Task, Tcb>, ws: seq<Task>, t: Task)
    requires SortedList(tcb, ws)
    ensures SortedList(tcb, Ranked(tcb, ws, t))
  {
    if ws != [] {
      var r := Ranked(tcb, ws, t);
      if P(tcb, ws[0]) < P(tcb, t) {
        assert r[1..] == ws;
      } else {
        RankedSorts(tcb, ws[1..], t);
        assert r[1..] == Ranked(tcb, ws[1..], t);
      }
    }
  }

  lemma {:induction false} AbsentFromWithout(ws: seq<Task>, t: Task)
    requires multiset(ws)[t] <= 1
    ensures t !in Without(ws, t)
  {
    WithoutCounts(ws, t);
    assert t in Without(ws, t) ==> multiset(Without(ws, t))[t] > 0;
  }

  /** Re-sorting a waiter whose priority changed leaves its list sorted. */
  lemma ResortSorts(tcb: map<Task, Tcb>, tcb': map<Task, Tcb>, ws: seq<Task>, t: Task)
    requires SortedList(tcb, ws) && multiset(ws)[t] <= 1
    requires forall x :: x != t ==> P(tcb', x) == P(tcb, x)
    ensures SortedList(tcb', Ranked(tcb', Without(ws, t), t))
  {
    var rest := Without(ws, t);
    SortedWithout(tcb, ws, t);
    AbsentFromWithout(ws, t);
    SortedSame(tcb, tcb', rest);
    RankedSorts(tcb', rest, t);
  }

  /** Owned lists and mutexes untouched: the owner links stand. */
  lemma SameOwners(k: State, k': State)
    requires OwnersLinked(k) && k'.mutexes == k.mutexes
    requires forall o :: T(k', o).owned == T(k, o).owned
    ensures OwnersLinked(k')
  {
    forall o, m ensures Held(k', o, m) == if o != 0 && M(k', m).locked && M(k', m).owner == o then 1 else 0 {
      assert T(k', o).owned == T(k, o).owned;
      assert Held(k, o, m) == if o != 0 && M(k, m).locked && M(k, m).owner == o then 1 else 0;
    }
    forall m ensures M(k', m).locked <==> M(k', m).owner != 0 { assert M(k', m) == M(k, m); }
  }

  // ---------- one priority change ----------

  /** Nothing but effective priorities (and with them list positions and ready buckets) differs. */
  ghost predicate OnlyPriorities(k: State, k': State) {
    && k'.tcb.Keys == k.tcb.Keys
    && (forall t :: T(k', t) == T(k, t).(prio := T(k', t).prio))
    && (forall q :: multiset(WaitersOf(k', q)) == multiset(WaitersOf(k, q)))
    && k'.mutexes == k.mutexes && k'.sems == k.sems && k'.queues == k.queues
    && k'.delay == k.delay && k'.current == k.current && k'.lockCount == k.lockCount
  }

  lemma OnlyPrioritiesTouch(k: State, k': State, t: Task)
    requires OnlyPriorities(k, k')
    ensures T(k', t) == T(k, t).(prio := T(k', t).prio) && k'.mutexes == k.mutexes && k'.tcb.Keys == k.tcb.Keys
  {
  }

  lemma OnlyPrioritiesTransitive(a: State, b: State, c: State)
    requires OnlyPriorities(a, b) && OnlyPriorities(b, c)
    ensures OnlyPriorities(a, c)
  {
    forall t ensures T(c, t) == T(a, t).(prio := T(c, t).prio) {
      assert T(b, t) == T(a, t).(prio := T(b, t).prio) && T(c, t) == T(b, t).(prio := T(c, t).prio);
    }
    forall q ensures multiset(WaitersOf(c, q)) == multiset(WaitersOf(a, q)) {
      assert multiset(WaitersOf(b, q)) == multiset(WaitersOf(a, q));
    }
  }

  lemma OnlyPrioritiesLinked(k: State, k': State)
    requires OnlyPriorities(k, k') && WaitersLinked(k) && OwnersLinked(k)
    ensures WaitersLinked(k') && OwnersLinked(k')
  {
    forall q, t ensures Queued(k', q, t) == if T(k', t).waitList == Some(q) then 1 else 0 {
      assert multiset(WaitersOf(k', q)) == multiset(WaitersOf(k, q));
      assert T(k', t) == T(k, t).(prio := T(k', t).prio);
      assert Queued(k, q, t) == if T(k, t).waitList == Some(q) then 1 else 0;
    }
    forall t ensures EdgeConsistent(T(k', t)) && T(k', t).owned == T(k, t).owned {
      assert T(k', t) == T(k, t).(prio := T(k', t).prio);
      assert EdgeConsistent(T(k, t));
    }
    SameOwners(k, k');
  }

  /** Re-sorting a waiter changes the order of its list and nothing else. */
  lemma ResortFrame(k: State, t: Task, q: WaitQ)
    requires multiset(WaitersOf(k, q))[t] == 1
    ensures var k' := Join(LeaveWaiters(k, q, t), q, t);
            && k' == k.(waiters := k'.waiters)
            && multiset(WaitersOf(k', q)) == multiset(WaitersOf(k, q))
            && (forall x :: x != q ==> WaitersOf(k', x) == WaitersOf(k, x))
  {
    var ws := WaitersOf(k, q);
    var k1 := LeaveWaiters(k, q, t);
    WithoutCounts(ws, t);
    assert WaitersOf(k1, q) == Without(ws, t);
    RankedCounts(k1.tcb, Without(ws, t), t);
  }

  /** The parts of the state that buckets and switch requests live in. */
  ghost predicate OnlyScheduling(k: State, k': State) {
    k' == k.(ready := k'.ready, bitmap := k'.bitmap, pendSv := k'.pendSv, switchPending := k'.switchPending)
  }

  lemma RequestFrame(k: State, t: Task)
    ensures OnlyScheduling(k, SwitchRequest(k)) && OnlyScheduling(k, PreemptRequest(k, t))
  {
  }

  /** Moving a ready task to another bucket rewrites only its priority. */
  lemma RebucketFrame(k: State, t: Task, p: nat)
    requires Live(k, t) && T(k, t).state == Ready
    ensures OnlyScheduling(SetTcb(k, t, T(k, t).(prio := p)), Rebucket(k, t, p))
  {
    hide PreemptRequest;
    var k1 := SetTcb(LeaveReady(k, t), t, T(k, t).(prio := p));
    assert MakeReady(k1, t).tcb == k1.tcb;
    RequestFrame(MakeReady(k1, t), t);
  }

  /** The branches taken for a task in no waiter list: buckets and requests may change, lists do not. */
  lemma PrioritySetUnqueued(k: State, t: Task, p: nat)
    requires Live(k, t) && T(k, t).waitList.None?
    ensures OnlyScheduling(SetTcb(k, t, T(k, t).(prio := p)), EffectivePrioritySet(k, t, p))
  {
    hide Rebucket, SwitchRequest;
    if p == T(k, t).prio {
      assert k.tcb == k.tcb[t := T(k, t).(prio := p)];
    } else if T(k, t).state == Ready {
      RebucketFrame(k, t, p);
    } else {
      RequestFrame(SetTcb(k, t, T(k, t).(prio := p)), t);
    }
  }

  lemma PrioritySetQueued(k: State, t: Task, p: nat, q: WaitQ)
    requires Live(k, t) && T(k, t).waitList == Some(q) && T(k, t).state == Blocked
    requires multiset(WaitersOf(k, q))[t] == 1
    ensures var k' := EffectivePrioritySet(k, t, p);
            && k' == k.(tcb := k.tcb[t := T(k, t).(prio := p)], waiters := k'.waiters)
            && (forall x :: x != q ==> WaitersOf(k', x) == WaitersOf(k, x))
            && multiset(WaitersOf(k', q)) == multiset(WaitersOf(k, q))
  {
    if p == T(k, t).prio {
      assert k.tcb == k.tcb[t := T(k, t).(prio := p)];
    } else {
      var k1 := SetTcb(k, t, T(k, t).(prio := p));
      assert forall x :: WaitersOf(k1, x) == WaitersOf(k, x);
      ResortFrame(k1, t, q);
    }
  }

  /** Everything but one TCB's priority, list orders and scheduling state is as it was. */
  ghost predicate OneChanged(k: State, k': State, t: Task, p: nat) {
    && k'.tcb == k.tcb[t := T(k, t).(prio := p)]
    && k'.mutexes == k.mutexes && k'.sems == k.sems && k'.queues == k.queues
    && k'.delay == k.delay && k'.current == k.current && k'.lockCount == k.lockCount
    && (forall q :: multiset(WaitersOf(k', q)) == multiset(WaitersOf(k, q)))
    && (forall q :: T(k, t).waitList != Some(q) ==> WaitersOf(k', q) == WaitersOf(k, q))
  }

  lemma OneChangedIsPriorities(k: State, k': State, t: Task, p: nat)
    requires Live(k, t) && OneChanged(k, k', t, p)
    ensures OnlyPriorities(k, k')
  {
  }

  lemma SchedulingIsOneChange(k: State, k': State, t: Task, p: nat)
    requires OnlyScheduling(SetTcb(k, t, T(k, t).(prio := p)), k')
    ensures OneChanged(k, k', t, p)
  {
  }

  /** What the priority change touches: t's priority, and t's place in the one list it waits on. */
  lemma PrioritySetFrame(k: State, t: Task, p: nat)
    requires WaitersLinked(k) && Live(k, t)
    ensures OneChanged(k, EffectivePrioritySet(k, t, p), t, p)
    ensures OnlyPriorities(k, EffectivePrioritySet(k, t, p))
  {
    assert EdgeConsistent(T(k, t));
    assert T(k, t).waitList.Some? ==> Queued(k, T(k, t).waitList.value, t) == 1;
    hide EffectivePrioritySet, OnlyPriorities, WaitersLinked;
    if T(k, t).waitList.None? {
      PrioritySetUnqueued(k, t, p);
      hide OneChanged, OnlyScheduling;
      SchedulingIsOneChange(k, EffectivePrioritySet(k, t, p), t, p);
    } else {
      PrioritySetQueued(k, t, p, T(k, t).waitList.value);
      assert OneChanged(k, EffectivePrioritySet(k, t, p), t, p);
    }
    OneChangedIsPriorities(k, EffectivePrioritySet(k, t, p), t, p);
  }

  lemma PrioritySetSorted(k: State, t: Task, p: nat)
    requires WaitersLinked(k) && Live(k, t) && Sorted(k)
    ensures Sorted(EffectivePrioritySet(k, t, p))
  {
    var k' := EffectivePrioritySet(k, t, p);
    if p != T(k, t).prio {
      PrioritySetFrame(k, t, p);
      assert EdgeConsistent(T(k, t));
      forall q ensures SortedList(k'.tcb, WaitersOf(k', q)) {
        var ws := WaitersOf(k, q);
        assert SortedList(k.tcb, ws);
        assert Queued(k, q, t) == if T(k, t).waitList == Some(q) then 1 else 0;
        if T(k, t).waitList == Some(q) {
          ResortSorts(k.tcb, k'.tcb, ws, t);
        } else {
          assert t !in ws;
          SortedSame(k.tcb, k'.tcb, ws);
        }
      }
    }
  }

  lemma PrioritySetLinked(k: State, t: Task, p: nat)
    requires Linked(k) && Live(k, t)
    ensures OnlyPriorities(k, EffectivePrioritySet(k, t, p)) && Linked(EffectivePrioritySet(k, t, p))
  {
    hide EffectivePrioritySet, OnlyPriorities;
    PrioritySetFrame(k, t, p);
    PrioritySetSorted(k, t, p);
    OnlyPrioritiesLinked(k, EffectivePrioritySet(k, t, p));
  }

  lemma OnlyPrioritiesReflexive(k: State)
    ensures OnlyPriorities(k, k)
  {
  }

  /** The chain walk changes effective priorities only, and keeps every list linked. */
  lemma {:induction false} RecomputeFrame(k: State, t: Task, n: nat)
    requires Linked(k)
    ensures OnlyPriorities(k, PriorityRecompute(k, t, n)) && Linked(PriorityRecompute(k, t, n))
    decreases n
  {
    hide EffectivePrioritySet, Effective, OnlyPriorities, Linked;
    OnlyPrioritiesReflexive(k);
    if n > 0 && Live(k, t) {
      var k1 := EffectivePrioritySet(k, t, Effective(k, t));
      PrioritySetLinked(k, t, Effective(k, t));
      if T(k1, t).blockedOn.Some? {
        var next := M(k1, T(k1, t).blockedOn.value).owner;
        RecomputeFrame(k1, next, n - 1);
        OnlyPrioritiesTransitive(k, k1, PriorityRecompute(k1, next, n - 1));
      }
    }
  }

  // ---------- one TCB changes ----------

  /** Beside effective priorities, only t's control block differs: it is now r. */
  ghost predicate Becomes(k: State, k': State, t: Task, r: Tcb) {
    && k'.tcb.Keys == k.tcb.Keys
    && (forall x :: T(k', x) == (if x == t then r else T(k, x)).(prio := T(k', x).prio))
    && k'.mutexes == k.mutexes && k'.sems == k.sems && k'.queues == k.queues
    && k'.current == k.current && k'.lockCount == k.lockCount
  }

  lemma BecomesThenPriorities(k: State, k1: State, k2: State, t: Task, r: Tcb)
    requires Becomes(k, k1, t, r) && OnlyPriorities(k1, k2)
    ensures Becomes(k, k2, t, r)
  {
    forall x ensures T(k2, x) == (if x == t then r else T(k, x)).(prio := T(k2, x).prio) {
      assert T(k1, x) == (if x == t then r else T(k, x)).(prio := T(k1, x).prio);
      assert T(k2, x) == T(k1, x).(prio := T(k2, x).prio);
    }
  }

  /** Only the ready buckets, the delay list and the switch requests differ. */
  ghost predicate OnlyLists(k: State, k': State) {
    k' == k.(ready := k'.ready, bitmap := k'.bitmap, delay := k'.delay, pendSv := k'.pendSv, switchPending := k'.switchPending)
  }

  /** What Linked reads. */
  lemma LinkedSame(k: State, k': State)
    requires Linked(k) && k'.tcb == k.tcb && k'.waiters == k.waiters && k'.mutexes == k.mutexes
    ensures Linked(k')
  {
    forall q ensures WaitersOf(k', q) == WaitersOf(k, q) {}
    forall t ensures T(k', t) == T(k, t) {}
    SameOwners(k, k');
    forall q ensures SortedList(k'.tcb, WaitersOf(k', q)) { assert SortedList(k.tcb, WaitersOf(k, q)); }
    forall q, t ensures Queued(k', q, t) == if T(k', t).waitList == Some(q) then 1 else 0 {
      assert Queued(k, q, t) == if T(k, t).waitList == Some(q) then 1 else 0;
    }
    forall t ensures EdgeConsistent(T(k', t)) { assert EdgeConsistent(T(k, t)); }
  }

  lemma OnlyListsLinked(k: State, k': State)
    requires OnlyLists(k, k')
    ensures Linked(k) ==> Linked(k')
  {
    hide Linked;
    if Linked(k) { LinkedSame(k, k'); }
  }

  lemma OneTcbBecomes(k: State, k': State, t: Task, r: Tcb)
    requires Live(k, t) && k'.tcb == k.tcb[t := r]
    requires k'.mutexes == k.mutexes && k'.sems == k.sems && k'.queues == k.queues
    requires k'.current == k.current && k'.lockCount == k.lockCount
    ensures Becomes(k, k', t, r)
  {
  }

  /** Rewriting one TCB keeps the links if its waiter list and owned list stay and its edge agrees. */
  lemma SetTcbLinked(k: State, t: Task, r: Tcb)
    requires Linked(k) && Live(k, t)
    requires r.waitList == T(k, t).waitList && r.owned == T(k, t).owned && r.prio == T(k, t).prio && EdgeConsistent(r)
    ensures Linked(SetTcb(k, t, r)) && Becomes(k, SetTcb(k, t, r), t, r)
  {
    var k' := SetTcb(k, t, r);
    OneTcbBecomes(k, k', t, r);
    hide Becomes;
    SameOwners(k, k');
    hide OwnersLinked;
    forall q ensures SortedList(k'.tcb, WaitersOf(k', q)) {
      assert SortedList(k.tcb, WaitersOf(k, q));
      SortedSame(k.tcb, k'.tcb, WaitersOf(k, q));
    }
    forall q, x ensures Queued(k', q, x) == if T(k', x).waitList == Some(q) then 1 else 0 {
      assert Queued(k, q, x) == if T(k, x).waitList == Some(q) then 1 else 0;
    }
    forall x ensures EdgeConsistent(T(k', x)) { assert EdgeConsistent(T(k, x)); }
  }

  // ---------- a task leaves the list it waits on ----------

  /** A TCB that has left its waiter list, with its inheritance debt settled. */
  function Released(r: Tcb): Tcb { r.(waitList := None, piOwner := 0, blockedOn := None, blockedForever := false) }

  function LeaveAndClear(k: State, q: WaitQ, t: Task): State {
    SetTcb(LeaveWaiters(k, q, t), t, Released(T(k, t)))
  }

  lemma LeaveAndClearWaiters(k: State, q: WaitQ, t: Task)
    requires WaitersLinked(k) && Live(k, t) && T(k, t).waitList == Some(q)
    ensures WaitersLinked(LeaveAndClear(k, q, t))
  {
    var k' := LeaveAndClear(k, q, t);
    WithoutCounts(WaitersOf(k, q), t);
    hide Without;
    forall p, x ensures Queued(k', p, x) == if T(k', x).waitList == Some(p) then 1 else 0 {
      assert Queued(k, p, x) == if T(k, x).waitList == Some(p) then 1 else 0;
      assert WaitersOf(k', p) == if p == q then Without(WaitersOf(k, q), t) else WaitersOf(k, p);
    }
    forall x ensures EdgeConsistent(T(k', x)) { assert EdgeConsistent(T(k, x)); }
  }

  lemma LeaveAndClearFrame(k: State, q: WaitQ, t: Task)
    requires Linked(k) && Live(k, t) && T(k, t).waitList == Some(q)
    ensures Linked(LeaveAndClear(k, q, t)) && Becomes(k, LeaveAndClear(k, q, t), t, Released(T(k, t)))
  {
    var k' := LeaveAndClear(k, q, t);
    OneTcbBecomes(k, k', t, Released(T(k, t)));
    hide Becomes;
    SameOwners(k, k');
    hide OwnersLinked;
    LeaveAndClearWaiters(k, q, t);
    hide WaitersLinked;
    forall p ensures SortedList(k'.tcb, WaitersOf(k', p)) {
      assert SortedList(k.tcb, WaitersOf(k, p));
      SortedWithout(k.tcb, WaitersOf(k, p), t);
      SortedSame(k.tcb, k'.tcb, WaitersOf(k', p));
    }
  }

  lemma LeaveStateListFrame(k: State, t: Task)
    ensures OnlyLists(k, LeaveStateList(k, t))
  {
  }

  /** Leaving the list and settling the debt, with the two control-block writes as one. */
  lemma DepartInSteps(k: State, t: Task, q: WaitQ)
    requires Live(k, t) && T(k, t).waitList == Some(q)
    ensures var k2 := LeaveWaiters(k, q, t);
            WaiterDepart(SetTcb(k2, t, T(k2, t).(waitList := None)), t)
            == if DebtOwner(k, t) != 0 then PriorityRecompute(LeaveAndClear(k, q, t), DebtOwner(k, t), MAX_DEPTH)
               else LeaveAndClear(k, q, t)
  {
    hide PriorityRecompute, Without;
    var k2 := LeaveWaiters(k, q, t);
    var k3 := SetTcb(k2, t, T(k2, t).(waitList := None));
    var k4 := SetTcb(k3, t, T(k3, t).(piOwner := 0, blockedOn := None, blockedForever := false));
    assert k4.tcb == LeaveAndClear(k, q, t).tcb;
    assert DebtOwner(k3, t) == DebtOwner(k, t);
  }

  /** os_task_unlink in its two halves: leave the lists, then carry the priority change down the chain. */
  lemma UnlinkInSteps(k: State, t: Task)
    requires Live(k, t)
    ensures var k1 := LeaveStateList(k, t);
            && OnlyLists(k, k1)
            && Unlink(k, t) == (match T(k, t).waitList
                 case None => k1
                 case Some(q) =>
                   if DebtOwner(k, t) != 0 then PriorityRecompute(LeaveAndClear(k1, q, t), DebtOwner(k, t), MAX_DEPTH)
                   else LeaveAndClear(k1, q, t))
  {
    LeaveStateListFrame(k, t);
    var k1 := LeaveStateList(k, t);
    assert T(k1, t) == T(k, t) && DebtOwner(k1, t) == DebtOwner(k, t);
    hide PriorityRecompute, LeaveStateList, WaiterDepart, LeaveAndClear, LeaveWaiters, OnlyLists;
    if T(k, t).waitList.Some? { DepartInSteps(k1, t, T(k, t).waitList.value); }
  }

  /** What a TCB is once its task is unlinked. */
  function Left(r: Tcb): Tcb { if r.waitList.Some? then Released(r) else r }

  lemma UnlinkFrame(k: State, t: Task)
    requires Linked(k) && Live(k, t)
    ensures Linked(Unlink(k, t)) && Becomes(k, Unlink(k, t), t, Left(T(k, t)))
  {
    hide Unlink, LeaveStateList, PriorityRecompute, Linked, OnlyPriorities, LeaveAndClear;
    UnlinkInSteps(k, t);
    var k1 := LeaveStateList(k, t);
    OnlyListsLinked(k, k1);
    if T(k, t).waitList.Some? {
      var q := T(k, t).waitList.value;
      LeaveAndClearFrame(k1, q, t);
      var k2 := LeaveAndClear(k1, q, t);
      RecomputeFrame(k2, DebtOwner(k, t), MAX_DEPTH);
      OnlyPrioritiesReflexive(k2);
      BecomesThenPriorities(k1, k2, PriorityRecompute(k2, DebtOwner(k, t), MAX_DEPTH), t, Released(T(k, t)));
    }
  }
}
