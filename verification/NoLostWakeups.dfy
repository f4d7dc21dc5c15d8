/** The blocking protocol's invariant is kept by every remaining operation: queues, mutexes, timeouts,
    forced wakes, and the task API. */
module NoLostWakeups {
  import opened Sequences
  import opened Kernel
  import opened Links
  import opened Operations
  import opened Waking

  /** Waking one list leaves what another list has in hand. */
  lemma WakeElsewhere(k: State, q: WaitQ, x: WaitQ, d: int)
    requires Linked(k) && WakesOk(k) && x != q && NoLostAt(k, x, d)
    ensures NoLostAt(WakeOne(k, q), x, d)
  {
    hide Becomes, WakeOne, Linked, Rewrites;
    WakeOneFrame(k, q);
    var k' := WakeOne(k, q);
    if WaitersOf(k, q) != [] {
      var t := WaitersOf(k, q)[0];
      var r := Signaled(T(k, t), q);
      HeadWaits(k, q);
      BecomesRewrites(k, k', t, r);
      BecomesAt(k, k', t, r);
      assert WakeConsistent(T(k, t));
      hide WakesOk, WakeConsistent;
      StillWaiting(k, k', t, r, x);
      WokenRewritten(k, k', t, r, x);
      assert Woken(k, x) - {t} == Woken(k, x);
      assert Avail(k', x) == Avail(k, x);
    }
  }

  /** A task that waits on nothing is not touched by a wake, but for its priority. */
  lemma Bystander(k: State, q: WaitQ, c: Task)
    requires Linked(k) && T(k, c).waitList.None?
    ensures var k' := WakeOne(k, q);
            && T(k', c) == T(k, c).(prio := T(k', c).prio) && k'.current == k.current && (Live(k', c) <==> Live(k, c))
            && k'.mutexes == k.mutexes && k'.sems == k.sems && k'.queues == k.queues && k'.lockCount == k.lockCount
  {
    WakeOneFrame(k, q);
    hide Linked, Becomes, WakeOne;
    if WaitersOf(k, q) != [] {
      var t := WaitersOf(k, q)[0];
      BecomesAt(k, WakeOne(k, q), t, Signaled(T(k, t), q));
      BecomesOther(k, WakeOne(k, q), t, Signaled(T(k, t), q), c);
    }
  }

  lemma LooserIsFine(k: State, q: WaitQ, d: int)
    requires NoLost(k) && d >= 0
    ensures NoLostBut(k, q, d)
  {
    assert NoLostAt(k, q, 0);
  }

  // ---------- queues ----------

  /** An item moves: one side of the queue gains a unit and wakes a taker, the other side loses one.
      `gain` is woken, `lose` is the list the caller may have been waiting on. */
  lemma TransferProtocol(k: State, k1: State, c: Task, gain: WaitQ, lose: WaitQ, isr: bool)
    requires Protocol(k) && (!isr ==> Caller(k, c, lose)) && gain != lose && OnlyCounters(k, k1)
    requires Avail(k1, gain) <= Avail(k, gain) + 1 && Avail(k1, lose) <= Avail(k, lose) - 1
    requires forall x :: x != gain ==> Avail(k1, x) <= Avail(k, x)
    ensures Protocol(WaitEnd(WakeOne(k1, gain), isr))
  {
    CountersStep(k, k1, gain, 1);
    assert k1.tcb == k.tcb && k1.waiters == k.waiters && k1.current == k.current;
    assert NoLostAt(k1, lose, -1) by {
      assert NoLostAt(k, lose, 0) && Woken(k1, lose) == Woken(k, lose) && WaitersOf(k1, lose) == WaitersOf(k, lose);
    }
    if !isr { CallerFacts(k, c, lose); }
    hide Linked, NoLostAt, WakesOk, WakeOne, WaitEnd, Woken, Avail;
    WakeOneStep(k1, gain);
    var k2 := WakeOne(k1, gain);
    if isr {
      IsrEndsNothing(k2);
    } else {
      WakeElsewhere(k1, gain, lose, -1);
      Bystander(k1, gain, c);
      assert NoLostBut(k2, lose, -1);
      TakeStep(k, k2, c, lose);
    }
  }

  lemma SameAvail(k: State, k': State, q: WaitQ)
    requires SameObjects(k, k')
    ensures Avail(k', q) == Avail(k, q)
  {
  }

  /** Nothing moves, but the gaining side is woken anyway: an overwrite, when the caller's own side has
      nothing left to take. */
  lemma OverwriteProtocol(k: State, c: Task, gain: WaitQ, lose: WaitQ, isr: bool)
    requires Protocol(k) && (!isr ==> Caller(k, c, lose)) && gain != lose && Avail(k, lose) == 0
    ensures Protocol(WaitEnd(WakeOne(k, gain), isr))
  {
    LooserIsFine(k, gain, 1);
    hide Linked, NoLostAt, WakesOk, WakeOne, WaitEnd, Woken, Avail;
    var k2 := WakeOne(k, gain);
    WakeOneStep(k, gain);
    if isr {
      IsrEndsNothing(k2);
    } else {
      CallerFacts(k, c, lose);
      Bystander(k, gain, c);
      SameAvail(k, k2, lose);
      ZeroAllowance(k2, lose);
      WaitEndStep(k2, c, lose, 0);
    }
  }

  /** What one side of a queue gains the other side loses. */
  lemma CountMoves(k: State, q: nat, n: nat)
    ensures var k1 := k.(queues := k.queues[q := Q(k, q).(count := n)]);
            && OnlyCounters(k, k1)
            && (forall x :: x != Receivers(q) && x != Senders(q) ==> Avail(k1, x) == Avail(k, x))
            && Avail(k1, Receivers(q)) == n
            && Avail(k1, Senders(q)) == (if n < Q(k, q).capacity then Q(k, q).capacity - n else 0)
            && Avail(k, Receivers(q)) == Q(k, q).count
            && Avail(k, Senders(q)) == (if Q(k, q).count < Q(k, q).capacity then Q(k, q).capacity - Q(k, q).count else 0)
  {
  }

  /** A pass that finds nothing to take ends empty-handed or queues the caller. */
  lemma NothingToTake(k: State, c: Task, q: WaitQ, w: Wait, isr: bool)
    requires Protocol(k) && (!isr ==> Caller(k, c, q)) && Avail(k, q) == 0 && !q.OfMutex?
    ensures Protocol(if w.Nothing? || !CanBlock(k, isr) || w.Spent? then WaitEnd(k, isr) else WaitBegin(k, c, q, w))
  {
    hide Protocol, WaitBegin, WaitEnd, Avail;
    if isr { IsrEndsNothing(k); }
    else if w.Nothing? || !CanBlock(k, isr) || w.Spent? { GiveUpStep(k, c, q); }
    else { PlainWaitStep(k, c, q, w); }
  }

  lemma StoreProtocol(k: State, c: Task, q: nat, isr: bool)
    requires Protocol(k) && (!isr ==> Caller(k, c, Senders(q))) && Q(k, q).count < Q(k, q).capacity
    ensures Protocol(WaitEnd(WakeOne(k.(queues := k.queues[q := Q(k, q).(count := Q(k, q).count + 1)]), Receivers(q)), isr))
  {
    hide Protocol, WakeOne, WaitEnd, Avail;
    CountMoves(k, q, Q(k, q).count + 1);
    TransferProtocol(k, k.(queues := k.queues[q := Q(k, q).(count := Q(k, q).count + 1)]), c, Receivers(q), Senders(q), isr);
  }

  /** The arms of a send. */
  lemma SendArms(k: State, c: Task, q: nat, w: Wait, isr: bool)
    ensures var done := w.Nothing? || !CanBlock(k, isr) || w.Spent?;
            QueueSend(k, c, q, w, isr).0 ==
            if Q(k, q).count < Q(k, q).capacity then WaitEnd(WakeOne(k.(queues := k.queues[q := Q(k, q).(count := Q(k, q).count + 1)]), Receivers(q)), isr)
            else if done && Q(k, q).mode == Overwrite && Q(k, q).capacity != 0 then WaitEnd(WakeOne(k, Receivers(q)), isr)
            else if done then WaitEnd(k, isr) else WaitBegin(k, c, Senders(q), w)
    ensures Q(k, q).count >= Q(k, q).capacity ==> Avail(k, Senders(q)) == 0
  {
    hide WakeOne, WaitEnd, WaitBegin;
  }

  lemma QueueSendProtocol(k: State, c: Task, q: nat, w: Wait, isr: bool)
    requires Protocol(k) && (!isr ==> Caller(k, c, Senders(q)))
    ensures Protocol(QueueSend(k, c, q, w, isr).0)
  {
    hide *;
    SendArms(k, c, q, w, isr);
    if Q(k, q).count < Q(k, q).capacity { StoreProtocol(k, c, q, isr); }
    else { OverwriteProtocol(k, c, Receivers(q), Senders(q), isr); NothingToTake(k, c, Senders(q), w, isr); }
  }

  lemma FetchProtocol(k: State, c: Task, q: nat, isr: bool)
    requires Protocol(k) && (!isr ==> Caller(k, c, Receivers(q))) && Q(k, q).count > 0
    ensures Protocol(WaitEnd(WakeOne(k.(queues := k.queues[q := Q(k, q).(count := Q(k, q).count - 1)]), Senders(q)), isr))
  {
    hide Protocol, WakeOne, WaitEnd, Avail;
    CountMoves(k, q, Q(k, q).count - 1);
    TransferProtocol(k, k.(queues := k.queues[q := Q(k, q).(count := Q(k, q).count - 1)]), c, Senders(q), Receivers(q), isr);
  }

  lemma QueueReceiveProtocol(k: State, c: Task, q: nat, w: Wait, isr: bool)
    requires Protocol(k) && (!isr ==> Caller(k, c, Receivers(q)))
    ensures Protocol(QueueReceive(k, c, q, w, isr).0)
  {
    assert Q(k, q).count == 0 ==> Avail(k, Receivers(q)) == 0;
    hide Protocol, WakeOne, WaitEnd, WaitBegin, Avail;
    if Q(k, q).count > 0 { FetchProtocol(k, c, q, isr); } else { NothingToTake(k, c, Receivers(q), w, isr); }
  }

  // ---------- mutexes ----------

  /** One mutex changes hands, its owner's control block with it. */
  lemma MutexStep(k: State, k': State, t: Task, r: Tcb, m: Mutex, d: int)
    requires Protocol(k) && Linked(k') && Rewrites(k, k', t, r)
    requires k'.sems == k.sems && k'.queues == k.queues && (forall n :: n != m ==> M(k', n) == M(k, n))
    requires r.wokenFrom == T(k, t).wokenFrom && r.waitList == T(k, t).waitList && WakeConsistent(r)
    requires Avail(k', OfMutex(m)) <= Avail(k, OfMutex(m)) + d
    ensures WakesOk(k') && NoLostBut(k', OfMutex(m), d)
  {
    WakesRewritten(k, k', t, r);
    forall x ensures (WaitersOf(k', x) != [] ==> WaitersOf(k, x) != []) && Woken(k', x) == Woken(k, x) && NoLostAt(k, x, 0) {
      WokenRewritten(k, k', t, r, x);
      assert t in Woken(k, x) <==> T(k, t).wokenFrom == Some(x);
      StillWaiting(k, k', t, r, x);
    }
    hide Rewrites, Linked, Woken, WakesOk;
    forall x | x != OfMutex(m) ensures NoLostAt(k', x, 0) { assert Avail(k', x) == Avail(k, x); }
  }

  lemma AcquireProtocol(k: State, c: Task, m: Mutex)
    requires Protocol(k) && Caller(k, c, OfMutex(m)) && !M(k, m).locked
    ensures Protocol(WaitEnd(OwnerLink(WithMutex(k, m, MutexObj(true, c)), c, m), false))
  {
    CallerFacts(k, c, OfMutex(m));
    OwnerLinkFrame(k, c, m);
    var k0 := WithMutex(k, m, MutexObj(true, c));
    var k1 := OwnerLink(k0, c, m);
    var r := T(k, c).(owned := T(k, c).owned + [m]);
    assert WakeConsistent(T(k, c));
    hide Linked, Becomes, Rewrites, OwnerLink, WaitEnd, Acquired, OnlyPriorities, WakesOk, NoLost;
    MutexRewrites(k, k1, m, MutexObj(true, c), c, r);
    assert Avail(k1, OfMutex(m)) == 0;
    MutexStep(k, k1, c, r, m, 0);
    WaitEndStep(k1, c, OfMutex(m), 0);
  }

  lemma ReleaseProtocol(k: State, c: Task, m: Mutex)
    requires Protocol(k) && Live(k, c) && M(k, m).locked && M(k, m).owner == c
    ensures Protocol(WakeOne(OwnerUnlink(WithMutex(k, m, MutexObj(false, 0)), c, m), OfMutex(m)))
  {
    OwnerUnlinkFrame(k, c, m);
    var k0 := WithMutex(k, m, MutexObj(false, 0));
    var k1 := OwnerUnlink(k0, c, m);
    var r := T(k, c).(owned := Without(T(k, c).owned, m));
    assert WakeConsistent(T(k, c));
    hide Linked, Becomes, Rewrites, OwnerUnlink, WakeOne, Unowned, OnlyPriorities, WakesOk, NoLost, Without;
    MutexRewrites(k, k1, m, MutexObj(false, 0), c, r);
    assert Avail(k1, OfMutex(m)) == 1;
    MutexStep(k, k1, c, r, m, 1);
    WakeOneStep(k1, OfMutex(m));
  }

  lemma DepartProtocol(k: State, c: Task)
    requires Protocol(k) && Live(k, c) && T(k, c).waitList.None?
    ensures Protocol(WaiterDepart(k, c))
  {
    WaiterDepartFrame(k, c);
    var k1 := WaiterDepart(k, c);
    var r := Released(T(k, c));
    BecomesRewrites(k, k1, c, r);
    assert WakeConsistent(T(k, c));
    hide Linked, Becomes, WaiterDepart, WakesOk, NoLost;
    assert SameObjects(k, k1) by { BecomesSameObjects(k, k1, c, r); }
    hide Rewrites;
    QuietProtocol(k, k1, c, r);
  }

  lemma BecomesSameObjects(k: State, k': State, t: Task, r: Tcb)
    requires Becomes(k, k', t, r)
    ensures SameObjects(k, k')
  {
  }

  /** Leaving the mutex loop empty-handed. */
  lemma DepartAndEnd(k: State, c: Task, q: WaitQ)
    requires Protocol(k) && Caller(k, c, q) && (Avail(k, q) == 0 || T(k, c).wokenFrom.None?)
    ensures Protocol(WaitEnd(WaiterDepart(k, c), false))
  {
    CallerFacts(k, c, q);
    WaiterDepartFrame(k, c);
    var k1 := WaiterDepart(k, c);
    BecomesAt(k, k1, c, Released(T(k, c)));
    BecomesSameObjects(k, k1, c, Released(T(k, c)));
    assert k1.current == k.current && Live(k1, c);
    SameAvail(k, k1, q);
    hide Protocol, Linked, Becomes, WaiterDepart, WaitEnd, Avail;
    DepartProtocol(k, c);
    GiveUpStep(k1, c, q);
  }

  lemma LockWaitProtocol(k: State, c: Task, m: Mutex, w: Wait)
    requires Protocol(k) && Caller(k, c, OfMutex(m)) && M(k, m).locked && M(k, m).owner != c
    ensures Protocol(WaitBegin(LockPending(k, c, m, w), c, OfMutex(m), w))
  {
    CallerFacts(k, c, OfMutex(m));
    assert Avail(k, OfMutex(m)) == 0;
    LockWaitFrame(k, c, m, w);
    hide Linked, Becomes, LockPending, WaitBegin, WakesOk, NoLost, Avail;
    WaitBeginStep(k, LockPending(k, c, m, w), c, OfMutex(m), w);
  }

  lemma MutexLockProtocol(k: State, c: Task, m: Mutex, w: Wait)
    requires Protocol(k) && Caller(k, c, OfMutex(m))
    ensures Protocol(MutexLock(k, c, m, w).0)
  {
    assert M(k, m).locked ==> Avail(k, OfMutex(m)) == 0;
    hide Protocol, WaitEnd, OwnerLink, WaiterDepart, WaitBegin, PriorityInherit, Avail;
    if !M(k, m).locked {
      AcquireProtocol(k, c, m);
    } else if M(k, m).owner == c || w.Nothing? || !CanBlock(k, false) || w.Spent? {
      DepartAndEnd(k, c, OfMutex(m));
    } else {
      LockWaitProtocol(k, c, m, w);
    }
  }

  lemma MutexUnlockProtocol(k: State, c: Task, m: Mutex)
    requires Protocol(k) && Live(k, c) && c != IDLE
    ensures Protocol(MutexUnlock(k, c, m).0)
  {
    LockedOwned(k, m);
    hide Protocol, WakeOne, OwnerUnlink;
    if M(k, m).locked && M(k, m).owner == c { ReleaseProtocol(k, c, m); }
  }

  // ---------- timeouts, forced wakes and the task API ----------

  /** A wait that ran out: the task holds no wake it could take with it. */
  lemma TimedOutProtocol(k: State, c: Task, q: WaitQ)
    requires Protocol(k) && Caller(k, c, q) && !T(k, c).signaled
    ensures Protocol(WaitTimedOut(k, c))
  {
    assert WakeConsistent(T(k, c));
    hide Protocol, WaitEnd, WaiterDepart;
    if T(k, c).doing.Some? && T(k, c).doing.value.OfMutex? { DepartAndEnd(k, c, q); } else { GiveUpStep(k, c, q); }
  }

  lemma ExpireProtocol(k: State, t: Task)
    requires Protocol(k) && Live(k, t) && T(k, t).state == Blocked
    ensures Protocol(ExpireWait(k, t))
  {
    assert WakeConsistent(T(k, t));
    ExpireWaitFrame(k, t);
    var r := Left(T(k, t)).(state := Ready);
    BecomesRewrites(k, ExpireWait(k, t), t, r);
    BecomesAt(k, ExpireWait(k, t), t, r);
    hide Linked, Becomes, Rewrites, ExpireWait, WakesOk, NoLost;
    QuietProtocol(k, ExpireWait(k, t), t, r);
  }

  lemma WakeBlockedProtocol(k: State, t: Task)
    requires Protocol(k)
    ensures Protocol(WakeBlocked(k, t))
  {
    if Live(k, t) && T(k, t).state == Blocked {
      assert WakeConsistent(T(k, t));
      WakeBlockedFrame(k, t);
      var r := Left(T(k, t)).(signaled := true, state := Ready);
      BecomesRewrites(k, WakeBlocked(k, t), t, r);
      BecomesAt(k, WakeBlocked(k, t), t, r);
      hide Linked, Becomes, Rewrites, WakeBlocked, WakesOk, NoLost;
      QuietProtocol(k, WakeBlocked(k, t), t, r);
    }
  }

  lemma StartProtocol(k: State, t: Task)
    requires Protocol(k) && Live(k, t)
    ensures Protocol(TaskStart(k, t))
  {
    assert WakeConsistent(T(k, t));
    TaskStartFrame(k, t);
    var r := Started(Left(T(k, t)), T(k, t).state == Blocked, k.current == Some(t));
    BecomesRewrites(k, TaskStart(k, t), t, r);
    BecomesAt(k, TaskStart(k, t), t, r);
    hide Linked, Becomes, Rewrites, TaskStart, WakesOk, NoLost;
    QuietProtocol(k, TaskStart(k, t), t, r);
  }

  /** Compensation passes an unused wake to the next waiter, so nothing is lost with its holder. */
  lemma CompensateProtocol(k: State, t: Task)
    requires Protocol(k) && Live(k, t)
    requires T(k, t).state == Running ==> T(k, t).doing.None?
    ensures Protocol(WakeCompensate(k, t)) && T(WakeCompensate(k, t), t).wokenFrom.None?
  {
    assert WakeConsistent(T(k, t));
    if T(k, t).wokenFrom.Some? {
      var q := T(k, t).wokenFrom.value;
      var r := T(k, t).(wokenFrom := None);
      SpendFrame(k, t);
      var k1 := Spend(k, t);
      BecomesRewrites(k, k1, t, r);
      ZeroAllowance(k, q);
      assert T(k1, t) == r && SameObjects(k, k1);
      hide Linked, Becomes, Rewrites, WakesOk, NoLost, NoLostBut, WakeOne;
      SpendStep(k, k1, t, r, q, 0);
      WakesRewritten(k, k1, t, r);
      WakeOneStep(k1, q);
      Bystander(k1, q, t);
    }
  }

  lemma RequestProtocol(k: State)
    requires Protocol(k)
    ensures Protocol(SwitchRequest(k))
  {
    SameProtocol(k, SwitchRequest(k));
  }

  /** The protocol reads control blocks, waiter lists and objects only. */
  lemma SameProtocol(k: State, k': State)
    requires Protocol(k) && k'.tcb == k.tcb && k'.waiters == k.waiters && SameObjects(k, k')
    ensures Protocol(k')
  {
    LinkedSame(k, k');
    hide Linked;
    forall x ensures NoLostAt(k', x, 0) {
      assert NoLostAt(k, x, 0) && WaitersOf(k', x) == WaitersOf(k, x) && Woken(k', x) == Woken(k, x) && Avail(k', x) == Avail(k, x);
    }
    forall t ensures WakeConsistent(T(k', t)) { assert WakeConsistent(T(k, t)); }
  }

  lemma ParkProtocol(k: State, t: Task)
    requires Protocol(k) && Live(k, t) && T(k, t).wokenFrom.None?
    ensures Protocol(Park(k, t))
  {
    ParkFrame(k, t);
    var r := Left(T(k, t)).(signaled := T(k, t).signaled || T(k, t).state == Blocked, state := Suspended);
    BecomesRewrites(k, Park(k, t), t, r);
    BecomesAt(k, Park(k, t), t, r);
    hide Linked, Becomes, Rewrites, Park, WakesOk, NoLost;
    QuietProtocol(k, Park(k, t), t, r);
  }

  lemma PauseProtocol(k: State, t: Task)
    requires Protocol(k) && Live(k, t) && (T(k, t).state == Running ==> T(k, t).doing.None?)
    ensures Protocol(TaskPause(k, t))
  {
    PauseInSteps(k, t);
    CompensateFrame(k, t);
    hide Protocol, TaskPause, WakeCompensate, Park, SwitchRequest;
    if !Refused(k, t) {
      CompensateProtocol(k, t);
      ParkProtocol(WakeCompensate(k, t), t);
      RequestProtocol(Park(WakeCompensate(k, t), t));
    }
  }

  lemma ForgetProtocol(k: State, t: Task)
    requires Protocol(k) && Live(k, t) && T(k, t).waitList.None? && T(k, t).owned == [] && T(k, t).wokenFrom.None?
    ensures Protocol(Forget(k, t))
  {
    ForgetFrame(k, t);
    assert SameObjects(k, Forget(k, t));
    hide Linked, Rewrites, Forget, WakesOk, NoLost;
    QuietProtocol(k, Forget(k, t), t, CLEARED);
  }

  lemma UnlinkProtocol(k: State, t: Task)
    requires Protocol(k) && Live(k, t)
    ensures Protocol(Unlink(k, t))
  {
    assert WakeConsistent(T(k, t));
    UnlinkFrame(k, t);
    BecomesRewrites(k, Unlink(k, t), t, Left(T(k, t)));
    BecomesAt(k, Unlink(k, t), t, Left(T(k, t)));
    hide Linked, Becomes, Rewrites, Unlink, WakesOk, NoLost;
    QuietProtocol(k, Unlink(k, t), t, Left(T(k, t)));
  }

  lemma DeleteProtocol(k: State, t: Task)
    requires Protocol(k) && Live(k, t) && T(k, t).owned == [] && (T(k, t).state == Running ==> T(k, t).doing.None?)
    ensures Protocol(TaskDelete(k, t))
  {
    DeleteInSteps(k, t);
    CompensateFrame(k, t);
    CompensateProtocol(k, t);
    var k1 := WakeCompensate(k, t);
    LeftIsAt(k1, t);
    LeftKeeps(T(k1, t));
    hide Linked, NoLost, WakesOk, TaskDelete, WakeCompensate, Unlink, Forget, SwitchRequest, Left;
    if !Refused(k, t) {
      UnlinkProtocol(k1, t);
      ForgetProtocol(Unlink(k1, t), t);
      RequestProtocol(Forget(Unlink(k1, t), t));
    }
  }

  lemma CreateProtocol(k: State, t: Task, p: nat, system: bool)
    requires Protocol(k) && !Live(k, t) && t != IDLE
    ensures Protocol(TaskCreate(k, t, p, system))
  {
    CreateFrame(k, t, p, system);
    var r := CLEARED.(base := p, prio := p, state := Suspended, system := system);
    assert SameObjects(k, TaskCreate(k, t, p, system));
    hide Linked, Rewrites, TaskCreate, WakesOk, NoLost;
    QuietProtocol(k, TaskCreate(k, t, p, system), t, r);
  }

  lemma PrioritySetProtocol(k: State, t: Task, p: nat)
    requires Protocol(k) && Live(k, t)
    ensures Protocol(PrioritySet(k, t, p))
  {
    if !T(k, t).system {
      assert WakeConsistent(T(k, t));
      PrioritySetTaskFrame(k, t, p);
      var r := T(k, t).(base := p);
      BecomesRewrites(k, PrioritySet(k, t, p), t, r);
      BecomesAt(k, PrioritySet(k, t, p), t, r);
      hide Linked, Becomes, Rewrites, PrioritySet, WakesOk, NoLost;
      QuietProtocol(k, PrioritySet(k, t, p), t, r);
    }
  }

  lemma SleepProtocol(k: State, c: Task, w: Wait)
    requires Protocol(k) && Live(k, c) && T(k, c).waitList.None? && T(k, c).doing.None?
    ensures Protocol(Sleep(k, c, w))
  {
    if k.lockCount == 0 && (w.For? || w.Forever?) {
      assert WakeConsistent(T(k, c));
      SleepFrame(k, c, w);
      var r := T(k, c).(state := Blocked, timed := w.For?);
      BecomesRewrites(k, Sleep(k, c, w), c, r);
      BecomesAt(k, Sleep(k, c, w), c, r);
      hide Linked, Becomes, Rewrites, Sleep, WakesOk, NoLost;
      QuietProtocol(k, Sleep(k, c, w), c, r);
    }
  }

  /** A context switch moves tasks between ready and running; wakes are not touched. */
  lemma DispatchProtocol(k: State, k': State)
    requires Protocol(k) && OnlyDispatch(k, k')
    ensures Protocol(k')
  {
    OnlyDispatchLinked(k, k');
    forall t ensures WakeConsistent(T(k', t)) && T(k', t).wokenFrom == T(k, t).wokenFrom {
      assert WakeConsistent(T(k, t));
      assert T(k', t) == T(k, t).(state := T(k', t).state);
    }
    assert k'.waiters == k.waiters && SameObjects(k, k');
    hide Linked, OnlyDispatch;
    forall x ensures NoLostAt(k', x, 0) {
      assert NoLostAt(k, x, 0) && WaitersOf(k', x) == WaitersOf(k, x) && Avail(k', x) == Avail(k, x);
      forall t ensures t in Woken(k', x) <==> t in Woken(k, x) { assert T(k', t).wokenFrom == T(k, t).wokenFrom; }
      assert Woken(k', x) == Woken(k, x);
    }
  }
}
