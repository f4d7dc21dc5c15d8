/** What each kernel operation does to the structure of the state: the control blocks it rewrites,
    and that every list stays linked and sorted. Later modules read off these frames. */
module Operations {
  import opened Sequences
  import opened Kernel
  import opened Links
  import DeltaList

  lemma BecomesTwice(k: State, k1: State, k2: State, t: Task, r1: Tcb, r2: Tcb)
    requires Becomes(k, k1, t, r1) && Becomes(k1, k2, t, r2)
    ensures Becomes(k, k2, t, r2)
  {
    forall x ensures T(k2, x) == (if x == t then r2 else T(k, x)).(prio := T(k2, x).prio) {
      assert T(k1, x) == (if x == t then r1 else T(k, x)).(prio := T(k1, x).prio);
      assert T(k2, x) == (if x == t then r2 else T(k1, x)).(prio := T(k2, x).prio);
    }
  }

  lemma BecomesThenLists(k: State, k1: State, k2: State, t: Task, r: Tcb)
    requires Becomes(k, k1, t, r) && OnlyLists(k1, k2)
    ensures Becomes(k, k2, t, r)
  {
    assert forall x :: T(k2, x) == T(k1, x);
  }

  lemma BecomesAt(k: State, k': State, t: Task, r: Tcb)
    requires Becomes(k, k', t, r)
    ensures T(k', t) == r.(prio := T(k', t).prio) && k'.tcb.Keys == k.tcb.Keys && k'.mutexes == k.mutexes
    ensures k'.sems == k.sems && k'.queues == k.queues && k'.current == k.current && k'.lockCount == k.lockCount
  {
  }

  /** r and r' agree up to the effective priority. */
  predicate SameTcb(r: Tcb, r': Tcb) { r' == r.(prio := r'.prio) }

  lemma BecomesSame(k: State, k': State, t: Task, r: Tcb, r': Tcb)
    requires Becomes(k, k', t, r) && SameTcb(r, r')
    ensures Becomes(k, k', t, r')
  {
  }

  lemma SetTwice(k: State, t: Task, r: Tcb, r': Tcb)
    ensures SetTcb(SetTcb(k, t, r), t, r') == SetTcb(k, t, r')
  {
    assert k.tcb[t := r][t := r'] == k.tcb[t := r'];
  }

  lemma SetSame(k: State, t: Task)
    requires Live(k, t)
    ensures SetTcb(k, t, T(k, t)) == k
  {
    assert k.tcb == k.tcb[t := T(k, t)];
  }

  // ---------- local changes ----------

  /** Rewriting the parts of one TCB that no link depends on. */
  lemma LocalFrame(k: State, t: Task, r: Tcb)
    requires Linked(k) && Live(k, t)
    requires r.waitList == T(k, t).waitList && r.owned == T(k, t).owned && r.prio == T(k, t).prio && EdgeConsistent(r)
    ensures Linked(SetTcb(k, t, r)) && Becomes(k, SetTcb(k, t, r), t, r)
  {
    SetTcbLinked(k, t, r);
  }

  lemma MakeReadyFrame(k: State, t: Task)
    requires Linked(k) && Live(k, t) && T(k, t).waitList.None?
    ensures Linked(MakeReady(k, t)) && Becomes(k, MakeReady(k, t), t, T(k, t).(state := Ready))
  {
    assert EdgeConsistent(T(k, t));
    var k1 := SetTcb(k, t, T(k, t).(state := Ready));
    assert OnlyLists(k1, MakeReady(k, t));
    hide MakeReady, Becomes, OnlyLists, Linked;
    SetTcbLinked(k, t, T(k, t).(state := Ready));
    OnlyListsLinked(k1, MakeReady(k, t));
    BecomesThenLists(k, k1, MakeReady(k, t), t, T(k, t).(state := Ready));
  }

  lemma RequestLinked(k: State, t: Task)
    requires Linked(k)
    ensures Linked(SwitchRequest(k)) && Linked(PreemptRequest(k, t))
    ensures OnlyLists(k, SwitchRequest(k)) && OnlyLists(k, PreemptRequest(k, t))
  {
    RequestFrame(k, t);
    assert OnlyLists(k, SwitchRequest(k)) && OnlyLists(k, PreemptRequest(k, t));
    hide SwitchRequest, PreemptRequest, OnlyLists, Linked;
    OnlyListsLinked(k, SwitchRequest(k));
    OnlyListsLinked(k, PreemptRequest(k, t));
  }

  /** A task that waits on nothing becomes ready, with r as its control block. */
  function Resume(k: State, t: Task, r: Tcb): State { PreemptRequest(MakeReady(SetTcb(k, t, r), t), t) }

  lemma ResumeFrame(k: State, t: Task, r: Tcb)
    requires Linked(k) && Live(k, t) && T(k, t).waitList.None?
    requires r.waitList.None? && r.owned == T(k, t).owned && r.prio == T(k, t).prio && EdgeConsistent(r)
    ensures Linked(Resume(k, t, r)) && Becomes(k, Resume(k, t, r), t, r.(state := Ready))
  {
    hide MakeReady, PreemptRequest, Becomes, OnlyLists, Linked;
    LocalFrame(k, t, r);
    var k1 := SetTcb(k, t, r);
    assert T(k1, t) == r;
    MakeReadyFrame(k1, t);
    RequestLinked(MakeReady(k1, t), t);
    BecomesTwice(k, k1, MakeReady(k1, t), t, r, r.(state := Ready));
    BecomesThenLists(k, MakeReady(k1, t), Resume(k, t, r), t, r.(state := Ready));
  }

  // ---------- waking ----------

  /** The control block of a waiter woken with a signal from q. */
  function Signaled(r: Tcb, q: WaitQ): Tcb { Left(r).(signaled := true, wokenFrom := Some(q), state := Ready) }

  /** Unlink t, rewrite its control block by a change no link depends on, and make it ready. */
  lemma UnlinkResumeFrame(k: State, t: Task, s: bool, w: Option<WaitQ>)
    requires Linked(k) && Live(k, t)
    ensures var k1 := Unlink(k, t); var k' := Resume(k1, t, T(k1, t).(signaled := s, wokenFrom := w));
            Linked(k') && Becomes(k, k', t, Left(T(k, t)).(signaled := s, wokenFrom := w, state := Ready))
  {
    assert EdgeConsistent(T(k, t));
    hide Unlink, Resume, Becomes, Linked;
    UnlinkFrame(k, t);
    var k1 := Unlink(k, t);
    BecomesAt(k, k1, t, Left(T(k, t)));
    var r := T(k1, t).(signaled := s, wokenFrom := w);
    ResumeFrame(k1, t, r);
    BecomesTwice(k, k1, Resume(k1, t, r), t, Left(T(k, t)), r.(state := Ready));
    BecomesSame(k, Resume(k1, t, r), t, r.(state := Ready), Left(T(k, t)).(signaled := s, wokenFrom := w, state := Ready));
  }

  lemma WakeWaiterFrame(k: State, q: WaitQ, t: Task)
    requires Linked(k) && Live(k, t)
    ensures Linked(WakeWaiter(k, q, t)) && Becomes(k, WakeWaiter(k, q, t), t, Signaled(T(k, t), q))
  {
    UnlinkResumeFrame(k, t, true, Some(q));
  }

  lemma WakeBlockedFrame(k: State, t: Task)
    requires Linked(k) && Live(k, t) && T(k, t).state == Blocked
    ensures Linked(WakeBlocked(k, t))
    ensures Becomes(k, WakeBlocked(k, t), t, Left(T(k, t)).(signaled := true, state := Ready))
  {
    hide Unlink, Becomes, Linked;
    UnlinkFrame(k, t);
    BecomesAt(k, Unlink(k, t), t, Left(T(k, t)));
    UnlinkResumeFrame(k, t, true, T(k, t).wokenFrom);
    assert T(Unlink(k, t), t).(signaled := true, wokenFrom := T(k, t).wokenFrom) == T(Unlink(k, t), t).(signaled := true);
  }

  lemma ExpireWaitFrame(k: State, t: Task)
    requires Linked(k) && Live(k, t)
    ensures Linked(ExpireWait(k, t)) && Becomes(k, ExpireWait(k, t), t, Left(T(k, t)).(state := Ready))
  {
    hide Unlink, Becomes, Linked, MakeReady, PreemptRequest;
    UnlinkFrame(k, t);
    var k1 := Unlink(k, t);
    BecomesAt(k, k1, t, Left(T(k, t)));
    UnlinkResumeFrame(k, t, T(k, t).signaled, T(k, t).wokenFrom);
    SetSame(k1, t);
  }

  /** The head of a nonempty list is a live waiter of that list. */
  lemma HeadWaits(k: State, q: WaitQ)
    requires Linked(k) && WaitersOf(k, q) != []
    ensures Live(k, WaitersOf(k, q)[0]) && T(k, WaitersOf(k, q)[0]).waitList == Some(q)
  {
    var t := WaitersOf(k, q)[0];
    assert Queued(k, q, t) > 0;
  }

  lemma WaitsIsQueued(k: State, q: WaitQ, t: Task)
    requires Linked(k)
    ensures t in WaitersOf(k, q) <==> T(k, t).waitList == Some(q)
  {
    assert Queued(k, q, t) == if T(k, t).waitList == Some(q) then 1 else 0;
  }

  lemma WakeOneFrame(k: State, q: WaitQ)
    requires Linked(k)
    ensures Linked(WakeOne(k, q))
    ensures WaitersOf(k, q) == [] ==> WakeOne(k, q) == k
    ensures WaitersOf(k, q) != [] ==>
      var t := WaitersOf(k, q)[0]; T(k, t).waitList == Some(q) && Becomes(k, WakeOne(k, q), t, Signaled(T(k, t), q))
  {
    hide WakeWaiter, Becomes, Linked;
    if WaitersOf(k, q) != [] {
      HeadWaits(k, q);
      WakeWaiterFrame(k, q, WaitersOf(k, q)[0]);
    }
  }

  // ---------- blocking ----------

  /** The control block of a task queued on q. */
  function Queueing(r: Tcb, q: WaitQ, w: Wait): Tcb {
    r.(waitList := Some(q), signaled := false, wokenFrom := None, timed := w.For?, state := Blocked, doing := Some(q))
  }

  /** WaitBegin without the delay entry and the switch request. */
  function Enqueue(k: State, c: Task, q: WaitQ, w: Wait): State {
    SetTcb(Join(k, q, c), c, Queueing(T(k, c), q, w))
  }

  lemma EnqueueQueued(k: State, c: Task, q: WaitQ, w: Wait, p: WaitQ, x: Task)
    ensures Queued(Enqueue(k, c, q, w), p, x) == Queued(k, p, x) + if p == q && x == c then 1 else 0
  {
    RankedCounts(k.tcb, WaitersOf(k, q), c);
    hide Ranked;
  }

  lemma EnqueueWaiters(k: State, c: Task, q: WaitQ, w: Wait)
    requires WaitersLinked(SetTcb(k, c, T(k, c).(blockedOn := None))) && Live(k, c)
    requires T(k, c).waitList.None? && T(k, c).blockedOn == EdgeOf(Some(q))
    requires EdgeOf(Some(q)).None? ==> T(k, c).piOwner == 0 && !T(k, c).blockedForever
    ensures WaitersLinked(Enqueue(k, c, q, w))
  {
    var k0 := SetTcb(k, c, T(k, c).(blockedOn := None));
    var k' := Enqueue(k, c, q, w);
    forall p, x ensures Queued(k', p, x) == if T(k', x).waitList == Some(p) then 1 else 0 {
      assert Queued(k0, p, x) == if T(k0, x).waitList == Some(p) then 1 else 0;
      EnqueueQueued(k, c, q, w, p, x);
    }
    forall x ensures EdgeConsistent(T(k', x)) { assert EdgeConsistent(T(k0, x)); }
  }

  /** Joining a list: the task is queued by its priority, every other waiter keeps its place. */
  lemma EnqueueFrame(k: State, c: Task, q: WaitQ, w: Wait)
    requires Linked(SetTcb(k, c, T(k, c).(blockedOn := None))) && Live(k, c)
    requires T(k, c).waitList.None? && T(k, c).blockedOn == EdgeOf(Some(q))
    requires EdgeOf(Some(q)).None? ==> T(k, c).piOwner == 0 && !T(k, c).blockedForever
    ensures Linked(Enqueue(k, c, q, w)) && Becomes(k, Enqueue(k, c, q, w), c, Queueing(T(k, c), q, w))
  {
    var k0 := SetTcb(k, c, T(k, c).(blockedOn := None));
    var k' := Enqueue(k, c, q, w);
    OneTcbBecomes(k, k', c, Queueing(T(k, c), q, w));
    hide Becomes;
    SameOwners(k0, k');
    hide OwnersLinked;
    EnqueueWaiters(k, c, q, w);
    hide WaitersLinked;
    forall p ensures SortedList(k'.tcb, WaitersOf(k', p)) {
      assert SortedList(k0.tcb, WaitersOf(k0, p));
      assert WaitersOf(k0, p) == WaitersOf(k, p);
      SortedSame(k0.tcb, k.tcb, WaitersOf(k, p));
      RankedSorts(k.tcb, WaitersOf(k, p), c);
      SortedSame(k.tcb, k'.tcb, WaitersOf(k', p));
    }
  }

  lemma WaitBeginIsEnqueue(k: State, c: Task, q: WaitQ, w: Wait)
    requires Live(k, c)
    ensures OnlyLists(Enqueue(k, c, q, w), WaitBegin(k, c, q, w))
  {
    hide Join, SwitchRequest;
    var k1 := Join(k, q, c);
    assert T(k1, c) == T(k, c) by { assert k1 == SetWaiters(k, q, Ranked(k.tcb, WaitersOf(k, q), c)) by { JoinIs(k, q, c); } }
    var k2 := Enqueue(k, c, q, w);
    var k3 := if w.For? then k2.(delay := DeltaList.Insert(k2.delay, c, w.ticks)) else k2;
    RequestFrame(k3, c);
  }

  lemma JoinIs(k: State, q: WaitQ, c: Task)
    ensures Join(k, q, c) == SetWaiters(k, q, Ranked(k.tcb, WaitersOf(k, q), c))
  {
  }

  lemma WaitBeginFrame(k: State, c: Task, q: WaitQ, w: Wait)
    requires Linked(SetTcb(k, c, T(k, c).(blockedOn := None))) && Live(k, c)
    requires T(k, c).waitList.None? && T(k, c).blockedOn == EdgeOf(Some(q))
    requires EdgeOf(Some(q)).None? ==> T(k, c).piOwner == 0 && !T(k, c).blockedForever
    ensures Linked(WaitBegin(k, c, q, w)) && Becomes(k, WaitBegin(k, c, q, w), c, Queueing(T(k, c), q, w))
  {
    hide Linked, Becomes, Enqueue, WaitBegin, OnlyLists;
    EnqueueFrame(k, c, q, w);
    WaitBeginIsEnqueue(k, c, q, w);
    OnlyListsLinked(Enqueue(k, c, q, w), WaitBegin(k, c, q, w));
    BecomesThenLists(k, Enqueue(k, c, q, w), WaitBegin(k, c, q, w), c, Queueing(T(k, c), q, w));
  }

  /** The control block of a task that has returned from its blocking call. */
  function Finished(r: Tcb): Tcb {
    r.(signaled := false, wokenFrom := None, piOwner := 0, blockedOn := None, blockedForever := false, doing := None)
  }

  lemma WaitEndFrame(k: State, c: Task)
    requires Linked(k) && k.current == Some(c) && Live(k, c) && T(k, c).waitList.None?
    ensures Linked(WaitEnd(k, false)) && Becomes(k, WaitEnd(k, false), c, Finished(T(k, c)))
  {
    assert EdgeConsistent(T(k, c));
    hide Linked, Becomes;
    LocalFrame(k, c, Finished(T(k, c)));
  }

  // ---------- mutex ownership ----------

  function WithMutex(k: State, m: Mutex, o: MutexObj): State { k.(mutexes := k.mutexes[m := o]) }

  function Acquired(k: State, c: Task, m: Mutex): State {
    SetTcb(WithMutex(k, m, MutexObj(true, c)), c, T(k, c).(owned := T(k, c).owned + [m]))
  }

  lemma AcquiredOwners(k: State, c: Task, m: Mutex)
    requires WaitersLinked(k) && OwnersLinked(k) && Live(k, c) && !M(k, m).locked
    ensures OwnersLinked(Acquired(k, c, m))
  {
    assert c != IDLE;
    hide WaitersLinked;
    var k' := Acquired(k, c, m);
    assert multiset(T(k, c).owned + [m]) == multiset(T(k, c).owned) + multiset{m};
    assert T(k', c).owned == T(k, c).owned + [m];
    forall o, n ensures Held(k', o, n) == if o != 0 && M(k', n).locked && M(k', n).owner == o then 1 else 0 {
      assert Held(k, o, n) == if o != 0 && M(k, n).locked && M(k, n).owner == o then 1 else 0;
      assert M(k', n) == if n == m then MutexObj(true, c) else M(k, n);
      if o == c { assert Held(k', c, n) == Held(k, c, n) + if n == m then 1 else 0; }
      else { assert T(k', o).owned == T(k, o).owned; }
    }
    forall n ensures M(k', n).locked <==> M(k', n).owner != 0 { assert n != m ==> M(k', n) == M(k, n); }
  }

  lemma AcquiredLinked(k: State, c: Task, m: Mutex)
    requires Linked(k) && Live(k, c) && !M(k, m).locked
    ensures Linked(Acquired(k, c, m))
    ensures Becomes(WithMutex(k, m, MutexObj(true, c)), Acquired(k, c, m), c, T(k, c).(owned := T(k, c).owned + [m]))
  {
    OneTcbBecomes(WithMutex(k, m, MutexObj(true, c)), Acquired(k, c, m), c, T(k, c).(owned := T(k, c).owned + [m]));
    AcquiredOwners(k, c, m);
    OwnedOnly(k, Acquired(k, c, m), c);
    hide WaitersLinked, OwnersLinked, Sorted, Becomes;
    SameWaiters(k, Acquired(k, c, m));
  }

  lemma OwnedOnly(k: State, k': State, c: Task)
    requires Live(k, c) && k'.waiters == k.waiters && c in k'.tcb && k'.tcb == k.tcb[c := k'.tcb[c]]
    requires k'.tcb[c] == k.tcb[c].(owned := k'.tcb[c].owned)
    ensures k'.tcb.Keys == k.tcb.Keys
    ensures forall x :: T(k', x) == T(k, x).(owned := T(k', x).owned, base := T(k', x).base)
  {
  }

  /** Waiter lists, and of every control block what they depend on, untouched: lists stay linked and sorted. */
  lemma SameWaiters(k: State, k': State)
    requires WaitersLinked(k) && Sorted(k) && k'.waiters == k.waiters && k'.tcb.Keys == k.tcb.Keys
    requires forall x :: T(k', x) == T(k, x).(owned := T(k', x).owned, base := T(k', x).base)
    ensures WaitersLinked(k') && Sorted(k')
  {
    forall q, x ensures Queued(k', q, x) == if T(k', x).waitList == Some(q) then 1 else 0 {
      assert Queued(k, q, x) == if T(k, x).waitList == Some(q) then 1 else 0;
      assert T(k', x) == T(k, x).(owned := T(k', x).owned, base := T(k', x).base);
    }
    forall x ensures EdgeConsistent(T(k', x)) {
      assert EdgeConsistent(T(k, x));
      assert T(k', x) == T(k, x).(owned := T(k', x).owned, base := T(k', x).base);
    }
    forall q ensures SortedList(k'.tcb, WaitersOf(k', q)) {
      assert SortedList(k.tcb, WaitersOf(k, q));
      forall x ensures P(k'.tcb, x) == P(k.tcb, x) {
        assert T(k', x) == T(k, x).(owned := T(k', x).owned, base := T(k', x).base);
      }
      SortedSame(k.tcb, k'.tcb, WaitersOf(k, q));
    }
  }

  lemma OwnerLinkFrame(k: State, c: Task, m: Mutex)
    requires Linked(k) && Live(k, c) && !M(k, m).locked
    ensures var k0 := WithMutex(k, m, MutexObj(true, c)); var k' := OwnerLink(k0, c, m);
            && OnlyPriorities(Acquired(k, c, m), k') && Linked(k')
            && Becomes(k0, k', c, T(k, c).(owned := T(k, c).owned + [m]))
  {
    hide Linked, Becomes, OnlyPriorities, PriorityRecompute;
    var k0 := WithMutex(k, m, MutexObj(true, c));
    var k1 := Acquired(k, c, m);
    AcquiredLinked(k, c, m);
    RecomputeFrame(k1, c, MAX_DEPTH);
    OnlyPrioritiesReflexive(k1);
    assert OwnerLink(k0, c, m) == if WaitersOf(k1, OfMutex(m)) != [] then PriorityRecompute(k1, c, MAX_DEPTH) else k1;
    BecomesThenPriorities(k0, k1, OwnerLink(k0, c, m), c, T(k, c).(owned := T(k, c).owned + [m]));
  }

  function Unowned(k: State, o: Task, m: Mutex): State {
    SetTcb(WithMutex(k, m, MutexObj(false, 0)), o, T(k, o).(owned := Without(T(k, o).owned, m)))
  }

  lemma UnownedIs(k: State, o: Task, m: Mutex, x: Task, n: Mutex)
    requires Live(k, o)
    ensures T(Unowned(k, o, m), x) == if x == o then T(k, o).(owned := Without(T(k, o).owned, m)) else T(k, x)
    ensures M(Unowned(k, o, m), n) == if n == m then MutexObj(false, 0) else M(k, n)
  {
    hide Without;
  }

  lemma UnownedHeld(k: State, o: Task, m: Mutex, x: Task, n: Mutex)
    requires Live(k, o)
    ensures Held(Unowned(k, o, m), x, n) == if x == o && n == m && Held(k, x, n) > 0 then Held(k, x, n) - 1 else Held(k, x, n)
    ensures M(Unowned(k, o, m), n) == if n == m then MutexObj(false, 0) else M(k, n)
  {
    hide Without, Unowned, T, M;
    UnownedIs(k, o, m, x, n);
    WithoutCounts(T(k, o).owned, m);
  }

  lemma UnownedOwners(k: State, o: Task, m: Mutex)
    requires OwnersLinked(k) && Live(k, o) && M(k, m).locked && M(k, m).owner == o
    ensures OwnersLinked(Unowned(k, o, m))
  {
    var k' := Unowned(k, o, m);
    hide Unowned, Held, M;
    forall x, n ensures Held(k', x, n) == if x != 0 && M(k', n).locked && M(k', n).owner == x then 1 else 0 {
      assert Held(k, x, n) == if x != 0 && M(k, n).locked && M(k, n).owner == x then 1 else 0;
      UnownedHeld(k, o, m, x, n);
    }
    forall n ensures M(k', n).locked <==> M(k', n).owner != 0 { UnownedHeld(k, o, m, o, n); }
  }

  lemma UnownedLinked(k: State, o: Task, m: Mutex)
    requires Linked(k) && Live(k, o) && M(k, m).locked && M(k, m).owner == o
    ensures Linked(Unowned(k, o, m))
    ensures Becomes(WithMutex(k, m, MutexObj(false, 0)), Unowned(k, o, m), o, T(k, o).(owned := Without(T(k, o).owned, m)))
  {
    hide Without;
    OneTcbBecomes(WithMutex(k, m, MutexObj(false, 0)), Unowned(k, o, m), o, T(k, o).(owned := Without(T(k, o).owned, m)));
    UnownedOwners(k, o, m);
    OwnedOnly(k, Unowned(k, o, m), o);
    hide WaitersLinked, OwnersLinked, Sorted, Becomes;
    SameWaiters(k, Unowned(k, o, m));
  }

  lemma OwnerUnlinkFrame(k: State, o: Task, m: Mutex)
    requires Linked(k) && Live(k, o) && M(k, m).locked && M(k, m).owner == o
    ensures var k0 := WithMutex(k, m, MutexObj(false, 0)); var k' := OwnerUnlink(k0, o, m);
            && OnlyPriorities(Unowned(k, o, m), k') && Linked(k')
            && Becomes(k0, k', o, T(k, o).(owned := Without(T(k, o).owned, m)))
  {
    hide Linked, Becomes, OnlyPriorities, PriorityRecompute, Without;
    var k0 := WithMutex(k, m, MutexObj(false, 0));
    var k1 := Unowned(k, o, m);
    UnownedLinked(k, o, m);
    RecomputeFrame(k1, o, MAX_DEPTH);
    OnlyPrioritiesReflexive(k1);
    assert OwnerUnlink(k0, o, m) == if WaitersOf(k1, OfMutex(m)) != [] then PriorityRecompute(k1, o, MAX_DEPTH) else k1;
    BecomesThenPriorities(k0, k1, OwnerUnlink(k0, o, m), o, T(k, o).(owned := Without(T(k, o).owned, m)));
  }

  /** The owner of a locked mutex is the idle task or a live task: nobody dies owning one. */
  lemma OwnersLive(k: State, m: Mutex)
    requires Linked(k) && M(k, m).owner != 0
    ensures Live(k, M(k, m).owner) && M(k, m).locked
  {
    assert Held(k, M(k, m).owner, m) == 1;
  }

  // ---------- entering and leaving a mutex wait ----------

  lemma PriorityInheritFrame(k: State, c: Task, o: Task)
    requires Linked(k) && Live(k, c) && EdgeOf(T(k, c).doing).Some? && c != o
    ensures Linked(PriorityInherit(k, c, o))
    ensures Becomes(k, PriorityInherit(k, c, o), c, if Live(k, o) then T(k, c).(piOwner := o) else T(k, c))
  {
    assert EdgeConsistent(T(k, c));
    if Live(k, o) {
      hide Linked, Becomes, OnlyPriorities, PriorityRecompute, EffectivePrioritySet;
      var r := T(k, c).(piOwner := o);
      var k1 := SetTcb(k, c, r);
      LocalFrame(k, c, r);
      var k2 := EffectivePrioritySet(k1, o, T(k1, c).prio);
      PrioritySetLinked(k1, o, T(k1, c).prio);
      BecomesThenPriorities(k, k1, k2, c, r);
      if T(k2, o).blockedOn.Some? {
        var next := M(k2, T(k2, o).blockedOn.value).owner;
        RecomputeFrame(k2, next, MAX_DEPTH);
        BecomesThenPriorities(k, k2, PriorityRecompute(k2, next, MAX_DEPTH), c, r);
      }
    } else {
      assert k == SetTcb(k, c, T(k, c)) by { assert k.tcb == k.tcb[c := T(k, c)]; }
      LocalFrame(k, c, T(k, c));
    }
  }

  /** Settling a mutex debt of a task that waits on nothing. */
  lemma WaiterDepartFrame(k: State, t: Task)
    requires Linked(k) && Live(k, t) && T(k, t).waitList.None?
    ensures Linked(WaiterDepart(k, t)) && Becomes(k, WaiterDepart(k, t), t, Released(T(k, t)))
  {
    assert EdgeConsistent(T(k, t));
    hide Linked, Becomes, OnlyPriorities, PriorityRecompute;
    var k1 := SetTcb(k, t, Released(T(k, t)));
    LocalFrame(k, t, Released(T(k, t)));
    RecomputeFrame(k1, DebtOwner(k, t), MAX_DEPTH);
    OnlyPrioritiesReflexive(k1);
    BecomesThenPriorities(k, k1, WaiterDepart(k, t), t, Released(T(k, t)));
  }

  // ---------- the task API ----------

  /** What a start makes of an unlinked task's control block. */
  function Started(r: Tcb, blocked: bool, running: bool): Tcb {
    r.(signaled := r.signaled || blocked, state := if running then Running else Ready)
  }

  lemma UnlinkCurrent(k: State, t: Task)
    requires Linked(k) && Live(k, t)
    ensures Unlink(k, t).current == k.current
  {
    hide Unlink, Linked;
    UnlinkFrame(k, t);
    BecomesAt(k, Unlink(k, t), t, Left(T(k, t)));
  }

  lemma SelfStartIs(k: State, t: Task)
    requires Linked(k) && Live(k, t) && k.current == Some(t)
    ensures TaskStart(k, t) == PreemptRequest(SetTcb(Unlink(k, t), t, Started(T(Unlink(k, t), t), T(k, t).state == Blocked, true)), t)
  {
    UnlinkCurrent(k, t);
    LeftIsAt(k, t);
    var k1 := Unlink(k, t);
    hide Unlink, Linked, PreemptRequest, EdgeConsistent;
    var r := Started(T(k1, t), T(k, t).state == Blocked, true);
    if T(k, t).state == Blocked { SetTwice(k1, t, T(k1, t).(signaled := true), r); }
  }

  /** Starting the running task itself: it is unlinked, and stays on the processor. */
  lemma SelfStartFrame(k: State, t: Task)
    requires Linked(k) && Live(k, t) && k.current == Some(t)
    ensures Linked(TaskStart(k, t)) && Becomes(k, TaskStart(k, t), t, Started(Left(T(k, t)), T(k, t).state == Blocked, true))
  {
    LeftIsAt(k, t);
    SelfStartIs(k, t);
    var r := Started(T(Unlink(k, t), t), T(k, t).state == Blocked, true);
    var k2 := SetTcb(Unlink(k, t), t, r);
    hide Unlink, Becomes, Linked, PreemptRequest, TaskStart;
    UnlinkThenRewrite(k, t, r);
    RequestLinked(k2, t);
    BecomesThenLists(k, k2, PreemptRequest(k2, t), t, r);
    BecomesSame(k, PreemptRequest(k2, t), t, r, Started(Left(T(k, t)), T(k, t).state == Blocked, true));
  }

  lemma TaskStartFrame(k: State, t: Task)
    requires Linked(k) && Live(k, t)
    ensures Linked(TaskStart(k, t))
    ensures Becomes(k, TaskStart(k, t), t, Started(Left(T(k, t)), T(k, t).state == Blocked, k.current == Some(t)))
  {
    if k.current == Some(t) {
      hide TaskStart, Becomes, Linked;
      SelfStartFrame(k, t);
    } else {
      LeftIsAt(k, t);
      UnlinkCurrent(k, t);
      var k1 := Unlink(k, t);
      var s := T(k, t).signaled || T(k, t).state == Blocked;
      hide Unlink, Becomes, Linked, PreemptRequest, MakeReady, EdgeConsistent, Left;
      UnlinkResumeFrame(k, t, s, T(k, t).wokenFrom);
      StartIsResume(k, t);
      BecomesSame(k, TaskStart(k, t), t, Left(T(k, t)).(signaled := s, wokenFrom := T(k, t).wokenFrom, state := Ready),
                  Started(Left(T(k, t)), T(k, t).state == Blocked, false)) by { LeftKeeps(T(k, t)); }
    }
  }

  lemma LeftKeeps(r: Tcb)
    ensures Left(r).signaled == r.signaled && Left(r).wokenFrom == r.wokenFrom && Left(r).state == r.state && Left(r).doing == r.doing
    ensures Left(r).base == r.base && Left(r).owned == r.owned && Left(r).prio == r.prio && Left(r).waitList.None?
  {
  }

  lemma StartIsResume(k: State, t: Task)
    requires Linked(k) && Live(k, t) && k.current != Some(t)
    ensures TaskStart(k, t) == Resume(Unlink(k, t), t,
              T(Unlink(k, t), t).(signaled := T(k, t).signaled || T(k, t).state == Blocked, wokenFrom := T(k, t).wokenFrom))
  {
    LeftIsAt(k, t);
    UnlinkCurrent(k, t);
    LeftKeeps(T(k, t));
    var k1 := Unlink(k, t);
    hide Unlink, Linked, PreemptRequest, MakeReady, EdgeConsistent, Left;
    if T(k, t).state != Blocked {
      SetSame(k1, t);
    }
  }

  lemma EdgesHold(k: State, t: Task)
    requires Linked(k)
    ensures EdgeConsistent(T(k, t))
  {
  }

  /** A pause marks the wait of a blocked task as signaled. */
  function Mark(k: State, t: Task): State {
    if T(k, t).state == Blocked then SetTcb(k, t, T(k, t).(signaled := true)) else k
  }

  /** Suspend after compensation: unlink and park. */
  function Park(k: State, t: Task): State {
    SetTcb(Unlink(Mark(k, t), t), t, T(Unlink(Mark(k, t), t), t).(state := Suspended))
  }

  lemma BecomesItself(k: State, t: Task)
    requires Live(k, t)
    ensures Becomes(k, k, t, T(k, t))
  {
  }

  /** A change of one TCB that follows an unlink, when no link depends on what is rewritten. */
  lemma UnlinkThenRewrite(k: State, t: Task, r: Tcb)
    requires Linked(k) && Live(k, t)
    requires r.waitList.None? && r.owned == T(Unlink(k, t), t).owned && r.prio == T(Unlink(k, t), t).prio && EdgeConsistent(r)
    requires T(Unlink(k, t), t).waitList.None?
    ensures Linked(SetTcb(Unlink(k, t), t, r)) && Becomes(k, SetTcb(Unlink(k, t), t, r), t, r)
  {
    hide Unlink, Becomes, Linked;
    UnlinkFrame(k, t);
    BecomesAt(k, Unlink(k, t), t, Left(T(k, t)));
    LocalFrame(Unlink(k, t), t, r);
    BecomesTwice(k, Unlink(k, t), SetTcb(Unlink(k, t), t, r), t, Left(T(k, t)), r);
  }

  lemma LeftIsAt(k: State, t: Task)
    requires Linked(k) && Live(k, t)
    ensures T(Unlink(k, t), t) == Left(T(k, t)).(prio := T(Unlink(k, t), t).prio)
    ensures EdgeConsistent(T(k, t)) && Live(Unlink(k, t), t) && EdgeConsistent(T(Unlink(k, t), t))
  {
    EdgesHold(k, t);
    UnlinkFrame(k, t);
    EdgesHold(Unlink(k, t), t);
    hide Unlink, Becomes, Linked;
    BecomesAt(k, Unlink(k, t), t, Left(T(k, t)));
  }

  lemma ParkFrame(k: State, t: Task)
    requires Linked(k) && Live(k, t)
    ensures Linked(Park(k, t))
    ensures Becomes(k, Park(k, t), t, Left(T(k, t)).(signaled := T(k, t).signaled || T(k, t).state == Blocked, state := Suspended))
  {
    var k1 := Mark(k, t);
    MarkFrame(k, t);
    LeftIsAt(k1, t);
    var r := T(k1, t);
    assert r == T(k, t).(signaled := T(k, t).signaled || T(k, t).state == Blocked);
    var r' := T(Unlink(k1, t), t).(state := Suspended);
    SuspendEdge(T(Unlink(k1, t), t));
    hide Unlink, Becomes, Linked, EdgeConsistent, Mark;
    UnlinkThenRewrite(k1, t, r');
    BecomesTwice(k, k1, Park(k, t), t, r, r');
    BecomesSame(k, Park(k, t), t, r', Left(T(k, t)).(signaled := r.signaled, state := Suspended));
  }

  lemma SuspendEdge(r: Tcb)
    requires EdgeConsistent(r) && r.waitList.None?
    ensures EdgeConsistent(r.(state := Suspended))
  {
  }

  lemma MarkFrame(k: State, t: Task)
    requires Linked(k) && Live(k, t)
    ensures Linked(Mark(k, t)) && Live(Mark(k, t), t) && Becomes(k, Mark(k, t), t, T(Mark(k, t), t))
    ensures T(Mark(k, t), t) == T(k, t).(signaled := T(k, t).signaled || T(k, t).state == Blocked)
  {
    EdgesHold(k, t);
    BecomesItself(k, t);
    hide Becomes, Linked;
    if T(k, t).state == Blocked { LocalFrame(k, t, T(k, t).(signaled := true)); }
  }

  lemma SleepFrame(k: State, c: Task, w: Wait)
    requires Linked(k) && Live(k, c) && T(k, c).waitList.None? && k.lockCount == 0 && (w.For? || w.Forever?)
    ensures Linked(Sleep(k, c, w)) && Becomes(k, Sleep(k, c, w), c, T(k, c).(state := Blocked, timed := w.For?))
  {
    EdgesHold(k, c);
    hide Becomes, Linked, SwitchRequest;
    var r := T(k, c).(state := Blocked, timed := w.For?);
    LocalFrame(k, c, r);
    var k1 := SetTcb(k, c, r);
    var k2 := if w.For? then k1.(delay := DeltaList.Insert(k1.delay, c, w.ticks)) else k1;
    RequestFrame(k2, c);
    assert OnlyLists(k1, Sleep(k, c, w));
    OnlyListsLinked(k1, Sleep(k, c, w));
    BecomesThenLists(k, k1, Sleep(k, c, w), c, r);
  }

  lemma PrioritySetTaskFrame(k: State, t: Task, p: nat)
    requires Linked(k) && Live(k, t)
    ensures var k1 := SetTcb(k, t, T(k, t).(base := p));
            Linked(k1) && Linked(PriorityRecompute(k1, t, MAX_DEPTH))
            && Becomes(k, PriorityRecompute(k1, t, MAX_DEPTH), t, T(k, t).(base := p))
  {
    EdgesHold(k, t);
    hide Becomes, Linked, PriorityRecompute, OnlyPriorities;
    var r := T(k, t).(base := p);
    LocalFrame(k, t, r);
    var k1 := SetTcb(k, t, r);
    RecomputeFrame(k1, t, MAX_DEPTH);
    BecomesThenPriorities(k, k1, PriorityRecompute(k1, t, MAX_DEPTH), t, r);
  }

  // ---------- control blocks, with creation and deletion ----------

  /** Up to effective priorities only t's control block differs; CLEARED stands for no task at all. */
  ghost predicate Rewrites(k: State, k': State, t: Task, r: Tcb) {
    forall x :: T(k', x) == (if x == t then r else T(k, x)).(prio := T(k', x).prio)
  }

  lemma BecomesRewrites(k: State, k': State, t: Task, r: Tcb)
    requires Becomes(k, k', t, r)
    ensures Rewrites(k, k', t, r)
  {
  }

  lemma MutexRewrites(k: State, k': State, m: Mutex, o: MutexObj, t: Task, r: Tcb)
    requires Becomes(WithMutex(k, m, o), k', t, r)
    ensures Rewrites(k, k', t, r) && k'.sems == k.sems && k'.queues == k.queues && k'.current == k.current
    ensures k'.mutexes == k.mutexes[m := o] && k'.tcb.Keys == k.tcb.Keys && k'.lockCount == k.lockCount
    ensures T(k', t) == r.(prio := T(k', t).prio)
  {
    assert forall x :: T(WithMutex(k, m, o), x) == T(k, x);
  }

  /** Only the semaphore and queue counters differ. */
  ghost predicate OnlyCounters(k: State, k': State) { k' == k.(sems := k'.sems, queues := k'.queues) }

  lemma OnlyCountersLinked(k: State, k': State)
    requires OnlyCounters(k, k') && Linked(k)
    ensures Linked(k')
  {
    LinkedSame(k, k');
  }

  /** A task gives up the wake it has not used. */
  function Spend(k: State, t: Task): State { SetTcb(k, t, T(k, t).(wokenFrom := None)) }

  lemma SpendFrame(k: State, t: Task)
    requires Linked(k) && Live(k, t)
    ensures Linked(Spend(k, t)) && Becomes(k, Spend(k, t), t, T(k, t).(wokenFrom := None))
  {
    EdgesHold(k, t);
    hide Linked, Becomes;
    LocalFrame(k, t, T(k, t).(wokenFrom := None));
  }

  lemma CompensateFrame(k: State, t: Task)
    requires Linked(k) && Live(k, t)
    ensures Linked(WakeCompensate(k, t)) && Live(WakeCompensate(k, t), t) && WakeCompensate(k, t).current == k.current
    ensures WakeCompensate(k, t).lockCount == k.lockCount && WakeCompensate(k, t).mutexes == k.mutexes
    ensures T(WakeCompensate(k, t), t).owned == T(k, t).owned && T(WakeCompensate(k, t), t).state == T(k, t).state
  {
    hide Linked, Becomes, WakeOne;
    var r := T(k, t);
    if r.state == Ready && r.signaled && r.wokenFrom.Some? {
      SpendFrame(k, t);
      var k1 := Spend(k, t);
      BecomesAt(k, k1, t, r.(wokenFrom := None));
      WakeOneFrame(k1, r.wokenFrom.value);
      if WaitersOf(k1, r.wokenFrom.value) != [] {
        var h := WaitersOf(k1, r.wokenFrom.value)[0];
        EdgesHold(k1, h);
        BecomesAt(k1, WakeOne(k1, r.wokenFrom.value), h, Signaled(T(k1, h), r.wokenFrom.value));
        assert h != t;
        BecomesOther(k1, WakeOne(k1, r.wokenFrom.value), h, Signaled(T(k1, h), r.wokenFrom.value), t);
      }
    }
  }

  lemma BecomesOther(k: State, k': State, t: Task, r: Tcb, x: Task)
    requires Becomes(k, k', t, r) && x != t
    ensures T(k', x) == T(k, x).(prio := T(k', x).prio)
  {
  }

  /** A pause is compensation, then parking, then a switch if the caller paused itself. */
  lemma PauseInSteps(k: State, t: Task)
    requires Linked(k) && Live(k, t)
    ensures TaskPause(k, t) == if Refused(k, t) then k
                               else var k1 := Park(WakeCompensate(k, t), t); if k.current == Some(t) then SwitchRequest(k1) else k1
    ensures Linked(TaskPause(k, t))
  {
    hide Linked, WakeCompensate, Unlink, Becomes, SwitchRequest;
    CompensateFrame(k, t);
    ParkFrame(WakeCompensate(k, t), t);
    RequestLinked(Park(WakeCompensate(k, t), t), t);
  }

  /** An unlinked task that owns nothing can be forgotten. */
  function Forget(k: State, t: Task): State { k.(tcb := k.tcb - {t}, current := if k.current == Some(t) then None else k.current) }

  lemma ForgetFrame(k: State, t: Task)
    requires Linked(k) && Live(k, t) && T(k, t).waitList.None? && T(k, t).owned == []
    ensures Linked(Forget(k, t)) && Rewrites(k, Forget(k, t), t, CLEARED)
  {
    var k' := Forget(k, t);
    assert forall q :: WaitersOf(k', q) == WaitersOf(k, q);
    assert Rewrites(k, k', t, CLEARED);
    SameOwners(k, k');
    hide OwnersLinked;
    forall q, x ensures Queued(k', q, x) == if T(k', x).waitList == Some(q) then 1 else 0 {
      assert Queued(k, q, x) == if T(k, x).waitList == Some(q) then 1 else 0;
    }
    forall q ensures SortedList(k'.tcb, WaitersOf(k', q)) {
      assert SortedList(k.tcb, WaitersOf(k, q));
      assert Queued(k, q, t) == 0;
      assert t !in WaitersOf(k, q);
      SortedSame(k.tcb, k'.tcb, WaitersOf(k, q));
    }
    forall x ensures EdgeConsistent(T(k', x)) { assert EdgeConsistent(T(k, x)); }
  }

  lemma DeleteInSteps(k: State, t: Task)
    requires Linked(k) && Live(k, t) && T(k, t).owned == []
    ensures TaskDelete(k, t) == if Refused(k, t) then k
                                else var k1 := Forget(Unlink(WakeCompensate(k, t), t), t); if k.current == Some(t) then SwitchRequest(k1) else k1
    ensures Linked(TaskDelete(k, t))
  {
    CompensateFrame(k, t);
    var k1 := WakeCompensate(k, t);
    LeftIsAt(k1, t);
    UnlinkFrame(k1, t);
    LeftKeeps(T(k1, t));
    UnlinkCurrent(k1, t);
    hide Linked, WakeCompensate, Unlink, Becomes, SwitchRequest;
    var k2 := Unlink(k1, t);
    ForgetFrame(k2, t);
    RequestLinked(Forget(k2, t), t);
  }

  lemma CreateFrame(k: State, t: Task, p: nat, system: bool)
    requires Linked(k) && !Live(k, t) && t != IDLE
    ensures var k' := TaskCreate(k, t, p, system);
            Linked(k') && Rewrites(k, k', t, CLEARED.(base := p, prio := p, state := Suspended, system := system))
  {
    var k' := TaskCreate(k, t, p, system);
    assert T(k, t) == CLEARED;
    SameOwners(k, k');
    hide OwnersLinked;
    forall q, x ensures Queued(k', q, x) == if T(k', x).waitList == Some(q) then 1 else 0 {
      assert Queued(k, q, x) == if T(k, x).waitList == Some(q) then 1 else 0;
    }
    forall q ensures SortedList(k'.tcb, WaitersOf(k', q)) {
      assert SortedList(k.tcb, WaitersOf(k, q));
      assert Queued(k, q, t) == 0;
      assert t !in WaitersOf(k, q);
      SortedSame(k.tcb, k'.tcb, WaitersOf(k, q));
    }
    forall x ensures EdgeConsistent(T(k', x)) { assert EdgeConsistent(T(k, x)); }
  }

  // ---------- waiting for a mutex ----------

  /** The locking task just before it queues: owner boosted, wait edge published. */
  function LockPending(k: State, c: Task, m: Mutex, w: Wait): State {
    var k1 := PriorityInherit(SetTcb(k, c, T(k, c).(doing := Some(OfMutex(m)))), c, M(k, m).owner);
    SetTcb(k1, c, T(k1, c).(blockedOn := Some(m), blockedForever := w.Forever?))
  }

  /** Its control block then. */
  function Pending(r: Tcb, m: Mutex, o: Task, w: Wait): Tcb {
    r.(doing := Some(OfMutex(m)), piOwner := o, blockedOn := Some(m), blockedForever := w.Forever?)
  }

  /** The two first steps of a mutex wait, with the program counter inside the mutex loop. */
  lemma BoostFrame(k: State, c: Task, m: Mutex)
    requires Linked(k) && Live(k, c) && T(k, c).waitList.None? && M(k, m).locked && M(k, m).owner != c
    ensures var r := T(k, c).(doing := Some(OfMutex(m))); var o := M(k, m).owner; var k1 := PriorityInherit(SetTcb(k, c, r), c, o);
            Linked(k1) && Becomes(k, k1, c, r.(piOwner := o))
  {
    EdgesHold(k, c);
    OwnersLive(k, m) by { LockedOwned(k, m); }
    LockedOwned(k, m);
    hide Linked, Becomes, PriorityInherit;
    var r := T(k, c).(doing := Some(OfMutex(m)));
    LocalFrame(k, c, r);
    var k0 := SetTcb(k, c, r);
    assert T(k0, c) == r;
    PriorityInheritFrame(k0, c, M(k, m).owner);
    BecomesTwice(k, k0, PriorityInherit(k0, c, M(k, m).owner), c, r, r.(piOwner := M(k, m).owner));
  }

  lemma LockedOwned(k: State, m: Mutex)
    requires Linked(k)
    ensures M(k, m).locked <==> M(k, m).owner != 0
  {
  }

  function Published(r: Tcb, m: Mutex, w: Wait): Tcb { r.(blockedOn := Some(m), blockedForever := w.Forever?) }

  lemma PublishFrame(k: State, c: Task, m: Mutex, w: Wait)
    requires Linked(k) && Live(k, c) && T(k, c).waitList.None? && EdgeOf(T(k, c).doing).Some?
    ensures var r := Published(T(k, c), m, w); var k' := SetTcb(k, c, r);
            && Linked(SetTcb(k', c, r.(blockedOn := None))) && T(k', c) == r && Becomes(k, k', c, r)
  {
    EdgesHold(k, c);
    var r := Published(T(k, c), m, w);
    SetTwice(k, c, r, r.(blockedOn := None));
    OneTcbBecomes(k, SetTcb(k, c, r), c, r);
    hide Linked, Becomes;
    LocalFrame(k, c, r.(blockedOn := None));
  }

  /** Publishing the wait edge: only the queue entry is missing for the state to be linked again. */
  lemma LockPendingFrame(k: State, c: Task, m: Mutex, w: Wait)
    requires Linked(k) && Live(k, c) && T(k, c).waitList.None? && M(k, m).locked && M(k, m).owner != c
    ensures var k2 := LockPending(k, c, m, w);
            && Linked(SetTcb(k2, c, T(k2, c).(blockedOn := None))) && Live(k2, c)
            && Becomes(k, k2, c, Pending(T(k, c), m, M(k, m).owner, w))
  {
    BoostFrame(k, c, m);
    hide Linked, Becomes, PriorityInherit;
    var r := T(k, c).(doing := Some(OfMutex(m)), piOwner := M(k, m).owner);
    var k1 := PriorityInherit(SetTcb(k, c, T(k, c).(doing := Some(OfMutex(m)))), c, M(k, m).owner);
    BecomesAt(k, k1, c, r);
    PublishFrame(k1, c, m, w);
    var k2 := LockPending(k, c, m, w);
    assert k2 == SetTcb(k1, c, Published(T(k1, c), m, w));
    hide LockPending;
    BecomesTwice(k, k1, k2, c, r, Published(T(k1, c), m, w));
    BecomesSame(k, k2, c, Published(T(k1, c), m, w), Pending(T(k, c), m, M(k, m).owner, w));
  }

  /** Waiting for a mutex queues the caller by priority, with its wait edge and its debt recorded. */
  lemma LockWaitFrame(k: State, c: Task, m: Mutex, w: Wait)
    requires Linked(k) && Live(k, c) && T(k, c).waitList.None? && M(k, m).locked && M(k, m).owner != c
    ensures var k2 := LockPending(k, c, m, w); var k' := WaitBegin(k2, c, OfMutex(m), w);
            && Becomes(k, k2, c, T(k2, c)) && T(k2, c) == Pending(T(k, c), m, M(k, m).owner, w).(prio := T(k2, c).prio)
            && Linked(k') && Becomes(k2, k', c, Queueing(T(k2, c), OfMutex(m), w))
  {
    LockPendingFrame(k, c, m, w);
    hide Linked, Becomes, LockPending, WaitBegin;
    var k2 := LockPending(k, c, m, w);
    BecomesAt(k, k2, c, Pending(T(k, c), m, M(k, m).owner, w));
    BecomesSame(k, k2, c, Pending(T(k, c), m, M(k, m).owner, w), T(k2, c));
    WaitBeginFrame(k2, c, OfMutex(m), w);
  }

  // ---------- the context switch ----------

  /** Only run states, ready lists and the running task differ; no blocked task is touched. */
  ghost predicate OnlyDispatch(k: State, k': State) {
    && k'.tcb.Keys == k.tcb.Keys && k'.waiters == k.waiters && k'.mutexes == k.mutexes
    && k'.sems == k.sems && k'.queues == k.queues && k'.delay == k.delay && k'.lockCount == k.lockCount
    && (forall x :: T(k', x) == T(k, x).(state := T(k', x).state))
    && (forall x :: T(k', x).state != T(k, x).state ==> T(k, x).state in {Ready, Running} && T(k', x).state in {Ready, Running})
  }

  lemma OnlyDispatchLinked(k: State, k': State)
    requires OnlyDispatch(k, k') && Linked(k)
    ensures Linked(k')
  {
    forall x ensures T(k', x) == T(k, x).(state := T(k', x).state) {}
    SameOwners(k, k');
    hide OwnersLinked;
    forall q ensures SortedList(k'.tcb, WaitersOf(k', q)) {
      assert SortedList(k.tcb, WaitersOf(k, q));
      forall x ensures P(k'.tcb, x) == P(k.tcb, x) { assert T(k', x) == T(k, x).(state := T(k', x).state); }
      SortedSame(k.tcb, k'.tcb, WaitersOf(k, q));
    }
    forall q, t ensures Queued(k', q, t) == if T(k', t).waitList == Some(q) then 1 else 0 {
      assert Queued(k, q, t) == if T(k, t).waitList == Some(q) then 1 else 0;
      assert T(k', t) == T(k, t).(state := T(k', t).state);
    }
    forall t ensures EdgeConsistent(T(k', t)) {
      assert EdgeConsistent(T(k, t));
      assert T(k', t) == T(k, t).(state := T(k', t).state);
      assert T(k', t).state != T(k, t).state ==> T(k, t).state != Blocked;
    }
  }
}
