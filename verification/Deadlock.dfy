/** Deadlock detection. A deadlock is a cycle of tasks, each waiting without a timeout for a mutex the
    next one owns. The check walks the chain a wait would join; the invariant is that no such cycle of
    up to MAX_DEPTH mutexes ever exists when every unbounded wait was cleared by the check. */
module Deadlock {
  import opened Sequences
  import opened Kernel
  import opened Links
  import opened Operations

  /** os_task_mutex_deadlock_check's walk: would c, waiting on m, close a cycle of at most n mutexes? */
  function CycleFrom(k: State, c: Task, m: Mutex, n: nat): bool
    decreases n
  {
    if n == 0 || !Live(k, M(k, m).owner) then false
    else if M(k, m).owner == c then true
    else if T(k, M(k, m).owner).blockedForever && T(k, M(k, m).owner).blockedOn.Some?
      then CycleFrom(k, c, T(k, M(k, m).owner).blockedOn.value, n - 1)
    else false
  }

  function DeadlockCheck(k: State, c: Task, m: Mutex): bool { CycleFrom(k, c, m, MAX_DEPTH) }

  // ---------- the independent reading: the graph of unbounded waits ----------

  /** The task t waits for without end. */
  function Next(k: State, t: Task): Option<Task> {
    if Live(k, t) && T(k, t).blockedForever && T(k, t).blockedOn.Some? && Live(k, M(k, T(k, t).blockedOn.value).owner)
    then Some(M(k, T(k, t).blockedOn.value).owner) else None
  }

  /** Where j unbounded waits lead from t. */
  function Hop(k: State, t: Task, j: nat): Option<Task>
    decreases j
  {
    if j == 0 then Some(t)
    else if Next(k, t).None? then None
    else Hop(k, Next(k, t).value, j - 1)
  }

  /** No cycle of at most MAX_DEPTH unbounded waits. */
  ghost predicate NoForeverCycle(k: State) {
    forall t: Task, j: nat :: 1 <= j <= MAX_DEPTH ==> Hop(k, t, j) != Some(t)
  }

  lemma {:induction false} HopAdds(k: State, t: Task, i: nat, j: nat)
    requires Hop(k, t, i).Some?
    ensures Hop(k, t, i + j) == Hop(k, Hop(k, t, i).value, j)
    decreases i
  {
    if i > 0 {
      HopAdds(k, Next(k, t).value, i - 1, j);
    }
  }

  /** A cycle can be read from any of its tasks. */
  lemma Rotate(k: State, t: Task, i: nat, j: nat)
    requires i <= j && Hop(k, t, j) == Some(t) && Hop(k, t, i).Some?
    ensures Hop(k, Hop(k, t, i).value, j) == Hop(k, t, i)
  {
    var c := Hop(k, t, i).value;
    HopAdds(k, t, i, j - i);
    assert Hop(k, c, j - i) == Some(t);
    HopAdds(k, c, j - i, i);
  }

  // ---------- the check is exact ----------

  /** A yes of the walk names a path: fewer than n unbounded waits lead from m's owner to c. */
  lemma {:induction false} YesHasPath(k: State, c: Task, m: Mutex, n: nat) returns (j: nat)
    requires CycleFrom(k, c, m, n)
    ensures j < n && Live(k, M(k, m).owner) && Hop(k, M(k, m).owner, j) == Some(c)
    decreases n
  {
    var o := M(k, m).owner;
    if o == c {
      j := 0;
    } else {
      var i := YesHasPath(k, c, T(k, o).blockedOn.value, n - 1);
      j := i + 1;
    }
  }

  /** Every such path is found. */
  lemma {:induction false} PathMeansYes(k: State, c: Task, m: Mutex, n: nat, j: nat)
    requires j < n && Live(k, M(k, m).owner) && Hop(k, M(k, m).owner, j) == Some(c)
    ensures CycleFrom(k, c, m, n)
    decreases n
  {
    var o := M(k, m).owner;
    if o != c {
      PathMeansYes(k, c, T(k, o).blockedOn.value, n - 1, j - 1);
    }
  }

  /** The state once c waits for m without end. */
  function Waiting(k: State, c: Task, m: Mutex): State {
    SetTcb(k, c, T(k, c).(blockedOn := Some(m), blockedForever := true))
  }

  /** Outside c every edge of k' is an edge of k. */
  lemma {:induction false} HopAvoids(k: State, k': State, t: Task, c: Task, j: nat)
    requires forall x :: x != c ==> Next(k', x).None? || Next(k', x) == Next(k, x)
    requires forall i: nat :: 0 <= i < j ==> Hop(k', t, i) != Some(c)
    requires Hop(k', t, j).Some?
    ensures Hop(k, t, j) == Hop(k', t, j)
    decreases j
  {
    if j > 0 {
      assert Hop(k', t, 0) == Some(t);
      forall i: nat | 0 <= i < j - 1 ensures Hop(k', Next(k', t).value, i) != Some(c) { assert Hop(k', t, i + 1) != Some(c); }
      HopAvoids(k, k', Next(k', t).value, c, j - 1);
    }
  }

  /** The first visit to c on a path that gets there. */
  lemma {:induction false} FirstVisit(k: State, t: Task, c: Task, j: nat) returns (i: nat)
    requires Hop(k, t, j) == Some(c)
    ensures i <= j && Hop(k, t, i) == Some(c) && forall h: nat :: 0 <= h < i ==> Hop(k, t, h) != Some(c)
    decreases j
  {
    if h: nat :| 0 <= h < j && Hop(k, t, h) == Some(c) {
      i := FirstVisit(k, t, c, h);
    } else {
      i := j;
    }
  }

  lemma WaitingNext(k: State, c: Task, m: Mutex)
    requires Live(k, c)
    ensures forall x :: x != c ==> Next(Waiting(k, c, m), x) == Next(k, x)
    ensures Next(Waiting(k, c, m), c) == if Live(k, M(k, m).owner) then Some(M(k, m).owner) else None
  {
  }

  /** The check says yes if and only if waiting without end would close a cycle through the caller - no
      false alarm, and no miss up to the depth it walks. */
  lemma CheckIsExact(k: State, c: Task, m: Mutex)
    requires Live(k, c)
    ensures DeadlockCheck(k, c, m) <==> exists j: nat :: 1 <= j <= MAX_DEPTH && Hop(Waiting(k, c, m), c, j) == Some(c)
  {
    var k' := Waiting(k, c, m);
    var o := M(k, m).owner;
    WaitingNext(k, c, m);
    hide Waiting, Next, CycleFrom;
    if DeadlockCheck(k, c, m) {
      var j := YesHasPath(k, c, m, MAX_DEPTH);
      var i := FirstVisit(k, o, c, j);
      HopAvoids(k', k, o, c, i);
      var l := i + 1;
      assert Hop(k', c, l) == Some(c);
    }
    if j: nat :| 1 <= j <= MAX_DEPTH && Hop(k', c, j) == Some(c) {
      BackToCaller(k, c, m, j);
    }
  }

  lemma BackToCaller(k: State, c: Task, m: Mutex, j: nat)
    requires Live(k, c) && 1 <= j <= MAX_DEPTH && Hop(Waiting(k, c, m), c, j) == Some(c)
    ensures DeadlockCheck(k, c, m)
  {
    var k' := Waiting(k, c, m);
    var o := M(k, m).owner;
    WaitingNext(k, c, m);
    hide Waiting, Next, CycleFrom;
    var i := FirstVisit(k', o, c, j - 1);
    HopAvoids(k, k', o, c, i);
    PathMeansYes(k, c, m, MAX_DEPTH, i);
  }

  // ---------- what keeps the graph free of cycles ----------

  /** Edges may disappear; none is new. */
  ghost predicate WaitsShrink(k: State, k': State) { forall t :: Next(k', t).None? || Next(k', t) == Next(k, t) }

  lemma {:induction false} HopShrinks(k: State, k': State, t: Task, j: nat)
    requires WaitsShrink(k, k') && Hop(k', t, j).Some?
    ensures Hop(k, t, j) == Hop(k', t, j)
    decreases j
  {
    if j > 0 {
      HopShrinks(k, k', Next(k', t).value, j - 1);
    }
  }

  lemma ShrinkingIsSafe(k: State, k': State)
    requires WaitsShrink(k, k') && NoForeverCycle(k)
    ensures NoForeverCycle(k')
  {
    forall t: Task, j: nat | 1 <= j <= MAX_DEPTH ensures Hop(k', t, j) != Some(t) {
      if Hop(k', t, j) == Some(t) {
        HopShrinks(k, k', t, j);
        assert false;
      }
    }
  }

  /** New edges that all lead to a task that waits for nobody close no cycle: an acquisition. */
  lemma EdgesToARunnerAreSafe(k: State, k': State, c: Task)
    requires NoForeverCycle(k) && Next(k', c).None?
    requires forall t :: Next(k', t).None? || Next(k', t) == Next(k, t) || Next(k', t) == Some(c)
    ensures NoForeverCycle(k')
  {
    forall t: Task, j: nat | 1 <= j <= MAX_DEPTH ensures Hop(k', t, j) != Some(t) {
      if Hop(k', t, j) == Some(t) {
        AvoidsRunner(k', t, c, j);
        SamePath(k, k', t, c, j);
        assert false;
      }
    }
  }

  /** A cycle never visits a task that waits for nobody. */
  lemma AvoidsRunner(k: State, t: Task, c: Task, j: nat)
    requires Next(k, c).None? && 1 <= j && Hop(k, t, j) == Some(t)
    ensures forall i: nat :: 0 <= i <= j ==> Hop(k, t, i) != Some(c)
  {
    forall i: nat | 0 <= i <= j ensures Hop(k, t, i) != Some(c) {
      if Hop(k, t, i) == Some(c) {
        Rotate(k, t, i, j);
        assert false;
      }
    }
  }

  lemma {:induction false} SamePath(k: State, k': State, t: Task, c: Task, j: nat)
    requires forall x :: Next(k', x).None? || Next(k', x) == Next(k, x) || Next(k', x) == Some(c)
    requires forall i: nat :: 0 <= i <= j ==> Hop(k', t, i) != Some(c)
    requires Hop(k', t, j).Some?
    ensures Hop(k, t, j) == Hop(k', t, j)
    decreases j
  {
    if j > 0 {
      assert Hop(k', t, 1) == Next(k', t) by { assert Hop(k', Next(k', t).value, 0) == Next(k', t); }
      forall i: nat | 0 <= i <= j - 1 ensures Hop(k', Next(k', t).value, i) != Some(c) { assert Hop(k', t, i + 1) != Some(c); }
      SamePath(k, k', Next(k', t).value, c, j - 1);
    }
  }

  /** One new edge, out of c: safe exactly because the check found no way back to c. */
  lemma ClearedWaitIsSafe(k: State, k': State, c: Task, m: Mutex)
    requires NoForeverCycle(k) && Live(k, c) && !DeadlockCheck(k, c, m)
    requires forall t :: Next(k', t).None? || Next(k', t) == Next(Waiting(k, c, m), t)
    ensures NoForeverCycle(k')
  {
    CheckIsExact(k, c, m);
    WaitingNext(k, c, m);
    var k1 := Waiting(k, c, m);
    hide DeadlockCheck, Waiting, Next;
    forall t: Task, j: nat | 1 <= j <= MAX_DEPTH ensures Hop(k1, t, j) != Some(t) {
      if Hop(k1, t, j) == Some(t) {
        if i: nat :| 0 <= i < j && Hop(k1, t, i) == Some(c) {
          Rotate(k1, t, i, j);
        } else {
          HopAvoids(k, k1, t, c, j);
        }
        assert false;
      }
    }
    assert WaitsShrink(k1, k');
    ShrinkingIsSafe(k1, k');
  }

  // ---------- steps ----------

  /** A rewritten control block that dropped its unbounded wait or kept it. */
  lemma RewriteShrinks(k: State, k': State, t: Task, r: Tcb)
    requires Rewrites(k, k', t, r) && k'.mutexes == k.mutexes && k'.tcb.Keys <= k.tcb.Keys
    requires r.blockedOn.None? || (r.blockedOn == T(k, t).blockedOn && r.blockedForever == T(k, t).blockedForever)
    ensures WaitsShrink(k, k')
  {
    forall x ensures Next(k', x).None? || Next(k', x) == Next(k, x) {
      assert T(k', x) == (if x == t then r else T(k, x)).(prio := T(k', x).prio);
    }
  }

  lemma RewriteIsSafe(k: State, k': State, t: Task, r: Tcb)
    requires NoForeverCycle(k) && Rewrites(k, k', t, r) && k'.mutexes == k.mutexes && k'.tcb.Keys <= k.tcb.Keys
    requires r.blockedOn.None? || (r.blockedOn == T(k, t).blockedOn && r.blockedForever == T(k, t).blockedForever)
    ensures NoForeverCycle(k')
  {
    hide NoForeverCycle, WaitsShrink;
    RewriteShrinks(k, k', t, r);
    ShrinkingIsSafe(k, k');
  }

  /** The graph is in the control blocks and the mutexes. */
  lemma SameWaits(k: State, k': State)
    requires NoForeverCycle(k) && k'.tcb.Keys == k.tcb.Keys && k'.mutexes == k.mutexes
    requires forall x :: T(k', x).blockedOn == T(k, x).blockedOn && T(k', x).blockedForever == T(k, x).blockedForever
    ensures NoForeverCycle(k')
  {
    assert forall t :: Next(k', t) == Next(k, t);
    hide NoForeverCycle, Next;
    ShrinkingIsSafe(k, k');
  }

  lemma WakeOneSafe(k: State, q: WaitQ)
    requires Linked(k) && NoForeverCycle(k)
    ensures NoForeverCycle(WakeOne(k, q))
  {
    hide Linked, Becomes, WakeOne, NoForeverCycle, Rewrites;
    WakeOneFrame(k, q);
    if WaitersOf(k, q) != [] {
      var t := WaitersOf(k, q)[0];
      var r := Signaled(T(k, t), q);
      EdgesHold(k, t);
      BecomesRewrites(k, WakeOne(k, q), t, r);
      BecomesAt(k, WakeOne(k, q), t, r);
      RewriteIsSafe(k, WakeOne(k, q), t, r);
    }
  }

  lemma BecomesSafe(k: State, k': State, t: Task, r: Tcb)
    requires NoForeverCycle(k) && Becomes(k, k', t, r)
    requires r.blockedOn.None? || (r.blockedOn == T(k, t).blockedOn && r.blockedForever == T(k, t).blockedForever)
    ensures NoForeverCycle(k')
  {
    BecomesRewrites(k, k', t, r);
    BecomesAt(k, k', t, r);
    hide NoForeverCycle, Becomes, Rewrites;
    RewriteIsSafe(k, k', t, r);
  }

  lemma CompensateSafe(k: State, t: Task)
    requires Linked(k) && Live(k, t) && NoForeverCycle(k)
    ensures NoForeverCycle(WakeCompensate(k, t))
  {
    hide Linked, Becomes, WakeOne, NoForeverCycle;
    if T(k, t).state == Ready && T(k, t).signaled && T(k, t).wokenFrom.Some? {
      SpendFrame(k, t);
      BecomesSafe(k, Spend(k, t), t, T(k, t).(wokenFrom := None));
      WakeOneSafe(Spend(k, t), T(k, t).wokenFrom.value);
    }
  }

  lemma RequestSafe(k: State)
    requires NoForeverCycle(k)
    ensures NoForeverCycle(SwitchRequest(k))
  {
    RequestFrame(k, IDLE);
    hide NoForeverCycle, SwitchRequest;
    assert forall x :: T(SwitchRequest(k), x) == T(k, x);
    SameWaits(k, SwitchRequest(k));
  }

  lemma PauseSafe(k: State, t: Task)
    requires Linked(k) && Live(k, t) && NoForeverCycle(k)
    ensures NoForeverCycle(TaskPause(k, t))
  {
    PauseInSteps(k, t);
    CompensateFrame(k, t);
    hide Linked, Becomes, NoForeverCycle, TaskPause, WakeCompensate, Park, SwitchRequest;
    if !Refused(k, t) {
      var k1 := WakeCompensate(k, t);
      CompensateSafe(k, t);
      ParkFrame(k1, t);
      EdgesHold(k1, t);
      BecomesSafe(k1, Park(k1, t), t, Left(T(k1, t)).(signaled := T(k1, t).signaled || T(k1, t).state == Blocked, state := Suspended));
      RequestSafe(Park(k1, t));
    }
  }

  lemma DeleteSafe(k: State, t: Task)
    requires Linked(k) && Live(k, t) && T(k, t).owned == [] && NoForeverCycle(k)
    ensures NoForeverCycle(TaskDelete(k, t))
  {
    DeleteInSteps(k, t);
    CompensateFrame(k, t);
    var k1 := WakeCompensate(k, t);
    LeftIsAt(k1, t);
    LeftKeeps(T(k1, t));
    EdgesHold(k1, t);
    hide Linked, Becomes, NoForeverCycle, TaskDelete, WakeCompensate, Unlink, SwitchRequest, Rewrites;
    if !Refused(k, t) {
      CompensateSafe(k, t);
      UnlinkFrame(k1, t);
      var k2 := Unlink(k1, t);
      BecomesSafe(k1, k2, t, Left(T(k1, t)));
      ForgetFrame(k2, t);
      RewriteIsSafe(k2, Forget(k2, t), t, CLEARED);
      RequestSafe(Forget(k2, t));
    }
  }

  lemma CreateSafe(k: State, t: Task, p: nat, system: bool)
    requires Linked(k) && !Live(k, t) && t != IDLE && NoForeverCycle(k)
    ensures NoForeverCycle(TaskCreate(k, t, p, system))
  {
    var k' := TaskCreate(k, t, p, system);
    assert forall x :: x != t ==> T(k', x) == T(k, x);
    forall x ensures Next(k', x).None? || Next(k', x) == Next(k, x) {
      if x != t && T(k, x).blockedOn.Some? && M(k, T(k, x).blockedOn.value).owner != IDLE {
        OwnersLive(k, T(k, x).blockedOn.value);
      }
    }
    hide NoForeverCycle, Next, Linked;
    ShrinkingIsSafe(k, k');
  }

  lemma WaitEndSafe(k: State, isr: bool)
    requires NoForeverCycle(k)
    ensures NoForeverCycle(WaitEnd(k, isr))
  {
    if !isr && k.current.Some? && Live(k, k.current.value) {
      var c := k.current.value;
      OneTcbBecomes(k, WaitEnd(k, isr), c, Finished(T(k, c)));
      hide NoForeverCycle, Becomes, WaitEnd;
      BecomesSafe(k, WaitEnd(k, isr), c, Finished(T(k, c)));
    }
  }

  lemma AcquireEdges(k: State, k': State, c: Task, m: Mutex, r: Tcb)
    requires Rewrites(k, k', c, r) && k'.tcb.Keys == k.tcb.Keys && k'.mutexes == k.mutexes[m := MutexObj(true, c)]
    requires r.blockedOn.None? && T(k, c).blockedOn.None?
    ensures Next(k', c).None? && forall x :: Next(k', x).None? || Next(k', x) == Next(k, x) || Next(k', x) == Some(c)
  {
    forall x ensures Next(k', x).None? || Next(k', x) == Next(k, x) || Next(k', x) == Some(c) {
      assert T(k', x) == (if x == c then r else T(k, x)).(prio := T(k', x).prio);
    }
  }

  lemma AcquireSafe(k: State, c: Task, m: Mutex)
    requires Linked(k) && Live(k, c) && T(k, c).waitList.None? && !M(k, m).locked && NoForeverCycle(k)
    ensures NoForeverCycle(OwnerLink(WithMutex(k, m, MutexObj(true, c)), c, m))
  {
    EdgesHold(k, c);
    var k' := OwnerLink(WithMutex(k, m, MutexObj(true, c)), c, m);
    var r := T(k, c).(owned := T(k, c).owned + [m]);
    hide Linked, Becomes, OwnerLink, NoForeverCycle, OnlyPriorities, Acquired, Next;
    OwnerLinkFrame(k, c, m);
    MutexRewrites(k, k', m, MutexObj(true, c), c, r);
    AcquireEdges(k, k', c, m, r);
    EdgesToARunnerAreSafe(k, k', c);
  }

  lemma ReleaseSafe(k: State, c: Task, m: Mutex)
    requires Linked(k) && Live(k, c) && M(k, m).locked && M(k, m).owner == c && NoForeverCycle(k)
    ensures NoForeverCycle(OwnerUnlink(WithMutex(k, m, MutexObj(false, 0)), c, m))
  {
    OwnerUnlinkFrame(k, c, m);
    assert IDLE !in k.tcb;
    var k' := OwnerUnlink(WithMutex(k, m, MutexObj(false, 0)), c, m);
    var r := T(k, c).(owned := Without(T(k, c).owned, m));
    hide Linked, Becomes, OwnerUnlink, NoForeverCycle, OnlyPriorities, Unowned, Without;
    MutexRewrites(k, k', m, MutexObj(false, 0), c, r);
    forall x ensures Next(k', x).None? || Next(k', x) == Next(k, x) {
      assert T(k', x) == (if x == c then r else T(k, x)).(prio := T(k', x).prio);
    }
    ShrinkingIsSafe(k, k');
  }

  lemma LockWaitEdges(k: State, k': State, c: Task, m: Mutex, r: Tcb)
    requires Live(k, c) && Rewrites(k, k', c, r) && k'.mutexes == k.mutexes && k'.tcb.Keys == k.tcb.Keys
    requires r.blockedOn == Some(m) && T(k, c).blockedOn.None?
    ensures r.blockedForever ==> forall x :: Next(k', x).None? || Next(k', x) == Next(Waiting(k, c, m), x)
    ensures !r.blockedForever ==> WaitsShrink(k, k')
  {
    WaitingNext(k, c, m);
    hide Waiting;
    forall x ensures x == c && !r.blockedForever ==> Next(k', x).None?
             ensures x == c && r.blockedForever ==> Next(k', x) == if Live(k, M(k, m).owner) then Some(M(k, m).owner) else None
             ensures x != c ==> Next(k', x) == Next(k, x) {
      assert T(k', x) == (if x == c then r else T(k, x)).(prio := T(k', x).prio);
    }
  }

  /** A wait for a mutex: harmless with a timeout, and without one as long as the check was negative. */
  lemma LockWaitSafe(k: State, c: Task, m: Mutex, w: Wait)
    requires Linked(k) && Live(k, c) && T(k, c).waitList.None? && M(k, m).locked && M(k, m).owner != c && NoForeverCycle(k)
    requires w.Forever? ==> !DeadlockCheck(k, c, m)
    ensures NoForeverCycle(WaitBegin(LockPending(k, c, m, w), c, OfMutex(m), w))
  {
    EdgesHold(k, c);
    LockWaitFrame(k, c, m, w);
    var k2 := LockPending(k, c, m, w);
    var k' := WaitBegin(k2, c, OfMutex(m), w);
    var r := Queueing(T(k2, c), OfMutex(m), w);
    hide Linked, LockPending, WaitBegin, NoForeverCycle, DeadlockCheck, Becomes, Rewrites, Next, WaitsShrink, Waiting;
    BecomesTwice(k, k2, k', c, T(k2, c), r);
    BecomesAt(k, k', c, r);
    BecomesRewrites(k, k', c, r);
    LockWaitEdges(k, k', c, m, r);
    if w.Forever? { ClearedWaitIsSafe(k, k', c, m); } else { ShrinkingIsSafe(k, k'); }
  }

  lemma DepartSafe(k: State, t: Task)
    requires Linked(k) && Live(k, t) && T(k, t).waitList.None? && NoForeverCycle(k)
    ensures NoForeverCycle(WaiterDepart(k, t))
  {
    WaiterDepartFrame(k, t);
    hide Linked, Becomes, WaiterDepart, NoForeverCycle;
    BecomesSafe(k, WaiterDepart(k, t), t, Released(T(k, t)));
  }

  lemma MutexLockSafe(k: State, c: Task, m: Mutex, w: Wait)
    requires Linked(k) && Live(k, c) && k.current == Some(c) && T(k, c).waitList.None? && NoForeverCycle(k)
    requires w.Forever? && M(k, m).locked && M(k, m).owner != c && CanBlock(k, false) ==> !DeadlockCheck(k, c, m)
    ensures NoForeverCycle(MutexLock(k, c, m, w).0)
  {
    hide Linked, NoForeverCycle, WaitEnd, OwnerLink, WaiterDepart, WaitBegin, PriorityInherit, DeadlockCheck;
    if !M(k, m).locked {
      AcquireSafe(k, c, m);
      WaitEndSafe(OwnerLink(WithMutex(k, m, MutexObj(true, c)), c, m), false);
    } else if M(k, m).owner == c || w.Nothing? || !CanBlock(k, false) || w.Spent? {
      DepartSafe(k, c);
      WaitEndSafe(WaiterDepart(k, c), false);
    } else {
      LockWaitSafe(k, c, m, w);
    }
  }

  lemma MutexUnlockSafe(k: State, c: Task, m: Mutex)
    requires Linked(k) && Live(k, c) && c != IDLE && NoForeverCycle(k)
    ensures NoForeverCycle(MutexUnlock(k, c, m).0)
  {
    LockedOwned(k, m);
    hide Linked, NoForeverCycle, WakeOne, OwnerUnlink, Becomes, OnlyPriorities;
    if M(k, m).locked && M(k, m).owner == c {
      ReleaseSafe(k, c, m);
      OwnerUnlinkFrame(k, c, m);
      WakeOneSafe(OwnerUnlink(WithMutex(k, m, MutexObj(false, 0)), c, m), OfMutex(m));
    }
  }
}
