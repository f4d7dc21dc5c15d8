/** What a caller can tell of the task calls, of an unlock and of a tick: who runs, sleeps or has gone
    afterwards, who was woken, and that every other task is as it was but for its priority. */
module TaskOutcomes {
  import opened Sequences
  import opened Kernel
  import opened Links
  import opened Operations
  import opened Inheritance
  import opened Scheduling
  import opened Preemption
  import opened Waking
  import opened NoLostWakeups
  import opened Timeouts
  import opened Runs
  import opened Ledgers
  import opened Outcomes
  import DeltaList
  import TimerOutcomes

  /** Up to priorities, every task but t is as it was. */
  ghost predicate OthersSame(k: State, k': State, t: Task) { forall x: Task :: x != t ==> T(k', x) == T(k, x).(prio := T(k', x).prio) }

  /** t is in no waiter list and no delay list. */
  ghost predicate Unlisted(k: State, t: Task) { T(k, t).waitList.None? && t !in DeltaList.Ids(k.delay) && forall q :: t !in WaitersOf(k, q) }

  lemma BecomesOthers(k: State, k': State, t: Task, r: Tcb)
    requires Becomes(k, k', t, r)
    ensures OthersSame(k, k', t) && T(k', t) == r.(prio := T(k', t).prio) && k'.mutexes == k.mutexes && k'.sems == k.sems && k'.queues == k.queues
  {
  }

  lemma FreeOfLists(k: State, t: Task)
    requires Linked(k) && Delayed(k) && T(k, t).waitList.None? && T(k, t).state != Blocked
    ensures Unlisted(k, t)
  {
    hide Linked, DelayedBut;
    AwakeUnlisted(k, t);
    forall q ensures t !in WaitersOf(k, q) { WaitsIsQueued(k, q, t); }
  }

  // ---------- sleep and forced wake ----------

  /** os_task_sleep_ticks: a sleeper is due in exactly the ticks it asked for, or never; a call that may not sleep
      does nothing. */
  lemma SleepOutcome(k: State, c: Task, w: Wait)
    requires Safe(k) && k.current == Some(c) && c != IDLE && T(k, c).state == Running && T(k, c).waitList.None?
    ensures var k' := Sleep(k, c, w);
            if MayWait(k, w, false) then
              && T(k', c).state == Blocked && T(k', c).waitList.None? && (c in DeltaList.Ids(k'.delay) <==> w.For?)
              && (w.For? ==> DeltaList.TicksLeft(k'.delay, c) == w.ticks) && k'.pendSv && OthersSame(k, k', c)
              && forall x :: x != c ==> DeltaList.TicksLeft(k'.delay, x) == DeltaList.TicksLeft(k.delay, x)
            else k' == k
  {
    SafeFacts(k);
    RunningIsLive(k, c);
    hide Safe, Linked, Delayed, DelayedBut, Becomes, Scheduled, Protocol;
    AwakeUnlisted(k, c);
    if MayWait(k, w, false) {
      SleepFrame(k, c, w);
      BecomesOthers(k, Sleep(k, c, w), c, T(k, c).(state := Blocked, timed := w.For?));
      SleepEnters(k, c, w);
      SleepPends(k, c, w);
      hide Sleep;
      if w.For? {
        forall x ensures x != c ==> DeltaList.TicksLeft(Sleep(k, c, w).delay, x) == DeltaList.TicksLeft(k.delay, x) {
          DeltaList.InsertTicksLeft(k.delay, c, w.ticks, x);
        }
        DeltaList.InsertTicksLeft(k.delay, c, w.ticks, c);
      }
    }
  }

  lemma RunningIsLive(k: State, c: Task)
    requires T(k, c).state == Running
    ensures Live(k, c)
  {
  }

  lemma SleepPends(k: State, c: Task, w: Wait)
    requires MayWait(k, w, false)
    ensures Sleep(k, c, w).pendSv
  {
    hide DeltaList.Insert;
  }

  /** Blocked or not, t is ready behind its equals and in no other list. */
  ghost predicate MadeReadyLast(k: State, t: Task) { T(k, t).state == Ready && LastReady(k, t) && Unlisted(k, t) }

  lemma ReadyAndLast(k: State, t: Task)
    requires Linked(k) && Delayed(k) && T(k, t).waitList.None? && T(k, t).state == Ready && LastReady(k, t)
    ensures MadeReadyLast(k, t)
  {
    hide Linked, Delayed, DelayedBut, LastReady, Unlisted;
    FreeOfLists(k, t);
  }

  /** os_task_wake_locked: a blocked task leaves whatever it waits for, and its wait reads as signaled. */
  lemma WakeOutcome(k: State, t: Task)
    requires Safe(k)
    ensures var k' := WakeBlocked(k, t);
            if T(k, t).state == Blocked then MadeReadyLast(k', t) && T(k', t).signaled && OthersSame(k, k', t) else k' == k
  {
    SafeFacts(k);
    hide Safe, Linked, Delayed, DelayedBut, Becomes, Scheduled, Protocol, MadeReadyLast, OthersSame;
    if T(k, t).state == Blocked {
      WakeBlockedFrame(k, t);
      WakeBlockedDelayed(k, t);
      BecomesOthers(k, WakeBlocked(k, t), t, Left(T(k, t)).(signaled := true, state := Ready));
      LeftKeeps(T(k, t));
      WakeLast(k, t);
      hide WakeBlocked;
      ReadyAndLast(WakeBlocked(k, t), t);
    }
  }

  lemma WakeLast(k: State, t: Task)
    requires T(k, t).state == Blocked
    ensures LastReady(WakeBlocked(k, t), t)
  {
    hide Unlink, MakeReady, PreemptRequest, LastReady;
    MadeReadyIsLast(SetTcb(Unlink(k, t), t, T(Unlink(k, t), t).(signaled := true)), t);
  }

  // ---------- start, pause, delete ----------

  /** os_task_start: ready behind its equals, out of whatever it waited for, and asking for the processor; a task that
      starts itself runs on. */
  lemma StartOutcome(k: State, t: Task)
    requires Safe(k) && Live(k, t)
    ensures var k' := TaskStart(k, t);
            && OthersSame(k, k', t) && (T(k, t).state == Blocked ==> T(k', t).signaled)
            && if k.current == Some(t) then T(k', t).state == Running && Unlisted(k', t) else MadeReadyLast(k', t)
  {
    SafeFacts(k);
    hide Safe, Linked, Delayed, DelayedBut, Becomes, Scheduled, Protocol, MadeReadyLast, OthersSame, Unlisted;
    TaskStartFrame(k, t);
    StartDelayed(k, t);
    BecomesOthers(k, TaskStart(k, t), t, Started(Left(T(k, t)), T(k, t).state == Blocked, k.current == Some(t)));
    LeftKeeps(T(k, t));
    if k.current == Some(t) {
      hide TaskStart;
      FreeOfLists(TaskStart(k, t), t);
    } else {
      StartLast(k, t);
      hide TaskStart;
      ReadyAndLast(TaskStart(k, t), t);
    }
  }

  lemma StartLast(k: State, t: Task)
    requires Linked(k) && Live(k, t) && k.current != Some(t)
    ensures LastReady(TaskStart(k, t), t)
  {
    StartIsResume(k, t);
    hide Linked, Unlink, MakeReady, PreemptRequest, LastReady, TaskStart;
    var r := T(Unlink(k, t), t).(signaled := T(k, t).signaled || T(k, t).state == Blocked, wokenFrom := T(k, t).wokenFrom);
    MadeReadyIsLast(SetTcb(Unlink(k, t), t, r), t);
  }

  /** A wake t had yet to use is handed to the next waiter of the list it came from. */
  ghost predicate HandsOn(k: State, k1: State, t: Task) {
    var r := T(k, t);
    if r.state == Ready && r.signaled && r.wokenFrom.Some? then FirstWoken(k, k1, r.wokenFrom.value) else k1 == k
  }

  lemma CompensateOutcome(k: State, t: Task)
    requires Linked(k) && Delayed(k) && Live(k, t)
    ensures HandsOn(k, WakeCompensate(k, t), t)
  {
    var r := T(k, t);
    hide Linked, Delayed, DelayedBut, WakeOne, FirstWoken, WaitersOf;
    if r.state == Ready && r.signaled && r.wokenFrom.Some? {
      SpendFrame(k, t);
      SpendDelayed(k, t);
      assert WakeCompensate(k, t) == WakeOne(Spend(k, t), r.wokenFrom.value);
      WakeOneOutcome(Spend(k, t), r.wokenFrom.value);
      SpendLists(k, t, r.wokenFrom.value);
      SameListWoken(k, Spend(k, t), WakeCompensate(k, t), r.wokenFrom.value);
    }
  }

  lemma SpendDelayed(k: State, t: Task)
    requires Linked(k) && Delayed(k) && Live(k, t)
    ensures Delayed(Spend(k, t))
  {
    hide Linked, DelayedBut, Becomes, Rewrites;
    SpendFrame(k, t);
    BecomesRewrites(k, Spend(k, t), t, T(k, t).(wokenFrom := None));
    DelayKept(k, Spend(k, t), t, T(k, t).(wokenFrom := None), multiset{});
  }

  lemma SpendLists(k: State, t: Task, q: WaitQ)
    ensures WaitersOf(Spend(k, t), q) == WaitersOf(k, q)
  {
  }

  /** os_task_pause: refused for a service task, and for the caller under the scheduler lock; otherwise t is
      suspended, in no list, any wake it had not used handed on first. */
  lemma PauseOutcome(k: State, t: Task)
    requires Safe(k) && Live(k, t)
    ensures var k' := TaskPause(k, t); var k1 := WakeCompensate(k, t);
            if T(k, t).system || (k.current == Some(t) && k.lockCount != 0) then k' == k
            else && HandsOn(k, k1, t) && T(k', t).state == Suspended && Unlisted(k', t) && OthersSame(k1, k', t)
                 && (T(k, t).state == Blocked ==> T(k', t).signaled) && (k.current == Some(t) ==> k'.pendSv)
  {
    SafeFacts(k);
    hide Safe, Linked, Delayed, DelayedBut, Scheduled, Protocol, HandsOn, Unlisted, OthersSame, Park, WakeCompensate, TaskPause;
    PauseInSteps(k, t);
    if !Refused(k, t) {
      CompensateOutcome(k, t);
      CompensateFrame(k, t);
      CompensateDelayed(k, t);
      ParkOutcome(WakeCompensate(k, t), t);
      RequestedOutcome(WakeCompensate(k, t), Park(WakeCompensate(k, t), t), t);
      ParkLocks(WakeCompensate(k, t), t);
    }
  }

  lemma ParkOutcome(k: State, t: Task)
    requires Linked(k) && Delayed(k) && Live(k, t)
    ensures var k' := Park(k, t);
            T(k', t).state == Suspended && Unlisted(k', t) && OthersSame(k, k', t) && (T(k, t).state == Blocked ==> T(k', t).signaled)
  {
    hide Linked, Delayed, DelayedBut, Unlisted, OthersSame, Park, Becomes;
    ParkFrame(k, t);
    ParkDelayed(k, t);
    LeftKeeps(T(k, t));
    BecomesOthers(k, Park(k, t), t, Left(T(k, t)).(signaled := T(k, t).signaled || T(k, t).state == Blocked, state := Suspended));
    FreeOfLists(Park(k, t), t);
  }

  lemma ParkLocks(k: State, t: Task)
    requires Linked(k) && Live(k, t)
    ensures Park(k, t).lockCount == k.lockCount
  {
    hide Linked, Park;
    ParkFrame(k, t);
    BecomesAt(k, Park(k, t), t, Left(T(k, t)).(signaled := T(k, t).signaled || T(k, t).state == Blocked, state := Suspended));
  }

  lemma RequestedOutcome(k: State, k': State, t: Task)
    ensures T(SwitchRequest(k'), t) == T(k', t) && (Unlisted(k', t) ==> Unlisted(SwitchRequest(k'), t))
    ensures OthersSame(k, k', t) ==> OthersSame(k, SwitchRequest(k'), t)
    ensures k'.lockCount == 0 ==> SwitchRequest(k').pendSv
  {
    var k2 := SwitchRequest(k');
    assert k2 == k'.(pendSv := k2.pendSv, switchPending := k2.switchPending);
    hide SwitchRequest, T, Unlisted, OthersSame;
    FlagsUnlisted(k', k2, t);
    if OthersSame(k, k', t) { FlagsOthers(k, k', k2, t); }
  }

  lemma FlagsUnlisted(k: State, k2: State, t: Task)
    requires k2 == k.(pendSv := k2.pendSv, switchPending := k2.switchPending)
    ensures T(k2, t) == T(k, t) && (Unlisted(k, t) ==> Unlisted(k2, t))
  {
    forall q ensures WaitersOf(k2, q) == WaitersOf(k, q) {}
    hide WaitersOf;
  }

  lemma FlagsOthers(k: State, k1: State, k2: State, t: Task)
    requires k2 == k1.(pendSv := k2.pendSv, switchPending := k2.switchPending) && OthersSame(k, k1, t)
    ensures OthersSame(k, k2, t)
  {
    forall x: Task ensures T(k2, x) == T(k1, x) {}
  }

  /** os_task_delete: likewise, and then there is no such task. */
  lemma DeleteOutcome(k: State, t: Task)
    requires Safe(k) && Live(k, t) && T(k, t).owned == []
    ensures var k' := TaskDelete(k, t); var k1 := WakeCompensate(k, t);
            if T(k, t).system || (k.current == Some(t) && k.lockCount != 0) then k' == k
            else && HandsOn(k, k1, t) && !Live(k', t) && Unlisted(k', t) && OthersSame(k1, k', t)
                 && (k.current == Some(t) ==> k'.pendSv && k'.current.None?)
  {
    SafeFacts(k);
    hide Safe, Linked, Delayed, DelayedBut, Scheduled, Protocol, HandsOn, Unlisted, OthersSame, WakeCompensate, TaskDelete, Unlink, Becomes;
    DeleteInSteps(k, t);
    if !Refused(k, t) {
      CompensateOutcome(k, t);
      CompensateFrame(k, t);
      ForgetOutcome(WakeCompensate(k, t), t);
      RequestedOutcome(WakeCompensate(k, t), Forget(Unlink(WakeCompensate(k, t), t), t), t);
      DeleteDelayed(k, t);
      GoneUnlisted(k, t);
    }
  }

  lemma ForgetOutcome(k: State, t: Task)
    requires Linked(k) && Live(k, t) && T(k, t).owned == []
    ensures var k' := Forget(Unlink(k, t), t);
            && !Live(k', t) && !Live(SwitchRequest(k'), t) && OthersSame(k, k', t) && k'.lockCount == k.lockCount
            && (k.current == Some(t) ==> k'.current.None? && SwitchRequest(k').current.None?)
  {
    hide Linked, Becomes, Unlink, OthersSame, SwitchRequest, Forget;
    UnlinkFrame(k, t);
    UnlinkCurrent(k, t);
    BecomesAt(k, Unlink(k, t), t, Left(T(k, t)));
    BecomesOthers(k, Unlink(k, t), t, Left(T(k, t)));
    ForgetOthers(k, Unlink(k, t), t);
    ForgetIs(Unlink(k, t), t);
  }

  lemma ForgetIs(k: State, t: Task)
    ensures var k' := Forget(k, t);
            && !Live(k', t) && !Live(SwitchRequest(k'), t) && k'.lockCount == k.lockCount
            && (k.current == Some(t) ==> k'.current.None? && SwitchRequest(k').current.None?)
  {
    hide SwitchRequest;
    RequestedKeeps(Forget(k, t));
  }

  lemma RequestedKeeps(k: State)
    ensures SwitchRequest(k).tcb == k.tcb && SwitchRequest(k).current == k.current
  {
    hide SwitchRequest;
    RequestFrame(k, 0);
  }

  lemma ForgetOthers(k: State, k1: State, t: Task)
    requires OthersSame(k, k1, t)
    ensures OthersSame(k, Forget(k1, t), t) && !Live(Forget(k1, t), t)
  {
    forall x: Task ensures x != t ==> T(Forget(k1, t), x) == T(k1, x) {}
  }

  lemma GoneUnlisted(k: State, t: Task)
    requires Linked(k) && Delayed(TaskDelete(k, t)) && Live(k, t) && T(k, t).owned == [] && !Live(TaskDelete(k, t), t)
    ensures Unlisted(TaskDelete(k, t), t)
  {
    DeleteInSteps(k, t);
    hide Delayed, DelayedBut, TaskDelete, Unlisted;
    assert T(TaskDelete(k, t), t) == CLEARED;
    hide Linked;
    FreeOfLists(TaskDelete(k, t), t);
  }

  // ---------- priorities ----------

  /** os_task_priority_set: the base priority is the one asked for, but a service task keeps its own; nothing else
      of any task changes but effective priorities. */
  lemma PrioritySetOutcome(k: State, t: Task, p: nat)
    requires Safe(k) && Live(k, t)
    ensures var k' := PrioritySet(k, t, p);
            if T(k, t).system then k' == k
            else T(k', t) == T(k, t).(base := p, prio := T(k', t).prio) && OthersSame(k, k', t) && k'.delay == k.delay && k'.mutexes == k.mutexes
  {
    SafeFacts(k);
    hide Safe, Linked, Delayed, DelayedBut, Scheduled, Protocol, OthersSame, Becomes, PriorityRecompute;
    if !T(k, t).system {
      PrioritySetTaskFrame(k, t, p);
      BecomesOthers(k, PrioritySet(k, t, p), t, T(k, t).(base := p));
      RecomputeDelay(SetTcb(k, t, T(k, t).(base := p)), t, MAX_DEPTH);
    }
  }

  // ---------- unlock ----------

  lemma UnlockAnswers(k: State, c: Task, m: Mutex)
    requires Linked(k) && c != IDLE
    ensures MutexUnlock(k, c, m) ==
            if !M(k, m).locked then (k, ErrorErr)
            else if M(k, m).owner != c then (k, NotOwner)
            else (WakeOne(OwnerUnlink(WithMutex(k, m, MutexObj(false, 0)), c, m), OfMutex(m)), Ok)
  {
    LockedOwned(k, m);
    hide Linked, WakeOne, OwnerUnlink;
  }

  /** A task outside every waiter list changes priority without touching any. */
  lemma UnqueuedPriority(k: State, t: Task, p: nat)
    requires Live(k, t) && T(k, t).waitList.None?
    ensures EffectivePrioritySet(k, t, p).waiters == k.waiters && T(EffectivePrioritySet(k, t, p), t).blockedOn == T(k, t).blockedOn
  {
    hide EffectivePrioritySet;
    PrioritySetUnqueued(k, t, p);
  }

  lemma UnownedLists(k: State, c: Task, m: Mutex)
    requires Live(k, c) && T(k, c).waitList.None? && T(k, c).blockedOn.None?
    ensures OwnerUnlink(WithMutex(k, m, MutexObj(false, 0)), c, m).waiters == k.waiters
  {
    var k0 := WithMutex(k, m, MutexObj(false, 0));
    var k1 := SetTcb(k0, c, T(k, c).(owned := Without(T(k, c).owned, m)));
    assert OwnerUnlink(k0, c, m) == if WaitersOf(k0, OfMutex(m)) != [] then PriorityRecompute(k1, c, MAX_DEPTH) else k1 by {
      hide PriorityRecompute, Without;
    }
    assert T(k1, c).waitList.None? && T(k1, c).blockedOn.None?;
    assert k1.waiters == k.waiters;
    hide OwnerUnlink, EffectivePrioritySet, Effective, Without, PriorityRecompute;
    WalkIs(k1, c, MAX_DEPTH);
    UnqueuedPriority(k1, c, Effective(k1, c));
  }

  lemma UnlockedDelay(k: State, c: Task, m: Mutex)
    requires Linked(k) && Live(k, c) && M(k, m).locked && M(k, m).owner == c && Delayed(k)
    ensures var k1 := OwnerUnlink(WithMutex(k, m, MutexObj(false, 0)), c, m);
            && Linked(k1) && Delayed(k1) && OthersSame(k, k1, c) && k1.delay == k.delay
            && T(k1, c) == T(k, c).(owned := Without(T(k, c).owned, m), prio := T(k1, c).prio)
            && k1.mutexes == k.mutexes[m := MutexObj(false, 0)]
  {
    var k0 := WithMutex(k, m, MutexObj(false, 0));
    hide Linked, Delayed, DelayedBut, OwnerUnlink, Without, OnlyPriorities, Becomes;
    OwnerUnlinkFrame(k, c, m);
    ReleaseDelayed(k, c, m);
    OnlyPrioritiesDelay(Unowned(k, c, m), OwnerUnlink(k0, c, m));
    hide T, OthersSame;
    assert forall x :: T(k0, x) == T(k, x) by { SameTs(k, k0); }
    BecomesOthers(k0, OwnerUnlink(k0, c, m), c, T(k, c).(owned := Without(T(k, c).owned, m)));
    OthersFrom(k, k0, OwnerUnlink(k0, c, m), c);
  }

  lemma SameTs(k: State, k0: State)
    requires k0.tcb == k.tcb
    ensures forall x :: T(k0, x) == T(k, x)
  {
  }

  lemma OthersFrom(k: State, k0: State, k1: State, c: Task)
    requires OthersSame(k0, k1, c) && forall x :: T(k0, x) == T(k, x)
    ensures OthersSame(k, k1, c)
  {
    hide T;
  }

  /** A wake leaves every task but the woken one as it was, and no mutex changes. */
  lemma WakeOthers(k: State, q: WaitQ, x: Task)
    requires Linked(k) && T(k, x).waitList != Some(q)
    ensures T(WakeOne(k, q), x) == T(k, x).(prio := T(WakeOne(k, q), x).prio) && WakeOne(k, q).mutexes == k.mutexes
  {
    hide Linked, WakeOne, Becomes;
    WakeOneFrame(k, q);
    if WaitersOf(k, q) != [] {
      var h := WaitersOf(k, q)[0];
      HeadWaits(k, q);
      BecomesAt(k, WakeOne(k, q), h, Signaled(T(k, h), q));
      BecomesOther(k, WakeOne(k, q), h, Signaled(T(k, h), q), x);
    }
  }

  /** os_mutex_unlock by the running task: an error when the mutex is free, refused when somebody else holds it;
      otherwise it is free, off the caller's list, and the first waiter is on its way with the signal. */
  lemma MutexUnlockOutcome(k: State, c: Task, m: Mutex)
    requires Safe(k) && Free(k) && k.current == Some(c)
    ensures var (k', status) := MutexUnlock(k, c, m); var held := M(k, m).locked;
            && (status == ErrorErr <==> !held) && (status == NotOwner <==> held && M(k, m).owner != c)
            && (status == Ok <==> held && M(k, m).owner == c) && (status != Ok ==> k' == k)
            && (status == Ok ==>
                 && M(k', m) == MutexObj(false, 0) && (forall n :: n != m ==> M(k', n) == M(k, n))
                 && T(k', c).owned == Without(T(k, c).owned, m) && T(k', c).state == Running && k'.current == k.current
                 && FirstWoken(k, k', OfMutex(m)))
  {
    hide *;
    SafeFacts(k);
    FreeFacts(k, c);
    UnlockAnswers(k, c, m);
    if M(k, m).locked && M(k, m).owner == c {
      var k1 := OwnerUnlink(WithMutex(k, m, MutexObj(false, 0)), c, m);
      UnlockedDelay(k, c, m);
      UnownedLists(k, c, m);
      WakeOneOutcome(k1, OfMutex(m));
      SameWaitersOf(k, k1, OfMutex(m));
      SameListWoken(k, k1, WakeOne(k1, OfMutex(m)), OfMutex(m));
      WakeOthers(k1, OfMutex(m), c);
      WakeOneSame(k1, OfMutex(m));
      UnlockedCurrent(k, c, m);
      forall n ensures M(WakeOne(k1, OfMutex(m)), n) == if n == m then MutexObj(false, 0) else M(k, n) { SetM(k, m, WakeOne(k1, OfMutex(m)), n); }
    }
  }

  lemma FreeFacts(k: State, c: Task)
    requires Safe(k) && Free(k) && k.current == Some(c)
    ensures Live(k, c) && c != IDLE && T(k, c).state == Running && T(k, c).waitList.None? && T(k, c).blockedOn.None?
  {
    assert Caller(k, c, OfSem(0));
    hide Safe;
    CallerRuns(k, c, OfSem(0));
  }

  lemma SameWaitersOf(k: State, k1: State, q: WaitQ)
    requires k1.waiters == k.waiters
    ensures WaitersOf(k1, q) == WaitersOf(k, q)
  {
  }

  lemma SetM(k: State, m: Mutex, k1: State, n: Mutex)
    requires k1.mutexes == k.mutexes[m := MutexObj(false, 0)]
    ensures M(k1, n) == if n == m then MutexObj(false, 0) else M(k, n)
  {
  }

  lemma UnlockedCurrent(k: State, c: Task, m: Mutex)
    requires Linked(k) && Live(k, c) && M(k, m).locked && M(k, m).owner == c
    ensures OwnerUnlink(WithMutex(k, m, MutexObj(false, 0)), c, m).current == k.current
  {
    var k0 := WithMutex(k, m, MutexObj(false, 0));
    hide Linked, OwnerUnlink, Without, OnlyPriorities, Becomes;
    OwnerUnlinkFrame(k, c, m);
    BecomesAt(k0, OwnerUnlink(k0, c, m), c, T(k, c).(owned := Without(T(k, c).owned, m)));
  }

  // ---------- giving up, and the tick ----------

  /** A wait that ran out: the caller goes on, in no list and with no debt, and nobody else is touched. */
  lemma GiveUpOutcome(k: State, c: Task, q: WaitQ)
    requires Safe(k) && Caller(k, c, q) && T(k, c).doing == Some(q)
    ensures RunsOn(k, WaitTimedOut(k, c), c) && SameObjects(k, WaitTimedOut(k, c)) && T(WaitTimedOut(k, c), c).owned == T(k, c).owned
  {
    hide *;
    SafeFacts(k);
    CallerRuns(k, c, q);
    TimedOutIs(k, c, q);
    if q.OfMutex? {
      RefusedOutcome(k, c, q.id);
    } else {
      EmptyHanded(k, c, false);
      UntouchedRunsOn(k, WaitEnd(k, false), c);
      EndKeepsOwned(k, c);
    }
  }

  lemma TimedOutIs(k: State, c: Task, q: WaitQ)
    requires T(k, c).doing == Some(q)
    ensures WaitTimedOut(k, c) == WaitEnd(if q.OfMutex? then WaiterDepart(k, c) else k, false)
    ensures q.OfMutex? ==> q == OfMutex(q.id)
  {
    hide WaitEnd, WaiterDepart;
  }

  lemma UntouchedRunsOn(k: State, k': State, c: Task)
    requires RunsUntouched(k, k', c)
    ensures RunsOn(k, k', c)
  {
  }

  lemma EndKeepsOwned(k: State, c: Task)
    ensures T(WaitEnd(k, false), c).owned == T(k, c).owned
  {
    if k.current.Some? && Live(k, k.current.value) { assert WaitEnd(k, false) == SetTcb(k, k.current.value, Finished(T(k, k.current.value))); }
    hide WaitEnd;
  }

  /** The wait of t ran out: it is ready, in no list, its signal as it was - and a wait's is unset. */
  ghost predicate RanOut(k: State, k': State, t: Task) {
    && T(k', t).state == Ready && T(k', t).waitList.None? && T(k', t).blockedOn.None? && T(k', t).signaled == T(k, t).signaled
    && T(k', t).owned == T(k, t).owned && T(k', t).doing == T(k, t).doing
  }

  lemma {:induction false} ExpireAllOutcome(k: State, due: seq<Task>, t: Task)
    requires Protocol(k) && Scheduled(k) && DelayedBut(k, multiset(due))
    ensures if t in due then RanOut(k, ExpireAll(k, due), t) else T(ExpireAll(k, due), t) == T(k, t).(prio := T(ExpireAll(k, due), t).prio)
    decreases |due|
  {
    hide *;
    NextDue(k, due);
    if due == [] {
      SameUpToPrio(k, t);
    } else {
      var k1 := ExpireWait(k, due[0]);
      DueSleeps(k, due);
      ProtocolLinks(k);
      ExpireProtocol(k, due[0]);
      ExpireKeeps(k, due[0]);
      ExpireDelayed(k, due[0], multiset(due));
      ExpireAllOutcome(k1, due[1..], t);
      OneExpires(k, due[0], t);
      if t in due[1..] {
        OnceDue(k, due, t);
        RanOutLater(k, k1, ExpireAll(k, due), t);
      } else if t == due[0] {
        RanOutFirst(k, k1, ExpireAll(k, due), t);
      } else {
        StillSame(k, k1, ExpireAll(k, due), t);
      }
    }
  }

  lemma NextDue(k: State, due: seq<Task>)
    ensures due == [] ==> ExpireAll(k, due) == k && multiset(due) == multiset{}
    ensures due != [] ==> ExpireAll(k, due) == ExpireAll(ExpireWait(k, due[0]), due[1..])
  {
    hide ExpireWait;
  }

  lemma SameUpToPrio(k: State, t: Task)
    ensures T(k, t) == T(k, t).(prio := T(k, t).prio)
  {
  }

  lemma OneExpires(k: State, d: Task, t: Task)
    requires Linked(k) && Live(k, d)
    ensures if t == d then RanOut(k, ExpireWait(k, d), t) else T(ExpireWait(k, d), t) == T(k, t).(prio := T(ExpireWait(k, d), t).prio)
  {
    hide Becomes, ExpireWait;
    EdgesHold(k, d);
    hide Linked;
    ExpireWaitFrame(k, d);
    if t == d {
      BecomesAt(k, ExpireWait(k, d), d, Left(T(k, d)).(state := Ready));
    } else {
      BecomesOther(k, ExpireWait(k, d), d, Left(T(k, d)).(state := Ready), t);
    }
  }

  lemma OnceDue(k: State, due: seq<Task>, t: Task)
    requires DelayedBut(k, multiset(due)) && due != [] && t in due[1..]
    ensures t != due[0]
  {
    assert due == [due[0]] + due[1..];
    assert multiset(due)[t] == multiset{due[0]}[t] + multiset(due[1..])[t];
    assert Entries(k, t) + multiset(due)[t] == if Sleeping(T(k, t)) then 1 else 0;
  }

  lemma RanOutLater(k: State, k1: State, k': State, t: Task)
    requires T(k1, t) == T(k, t).(prio := T(k1, t).prio) && RanOut(k1, k', t)
    ensures RanOut(k, k', t)
  {
  }

  lemma RanOutFirst(k: State, k1: State, k': State, t: Task)
    requires RanOut(k, k1, t) && T(k', t) == T(k1, t).(prio := T(k', t).prio)
    ensures RanOut(k, k', t)
  {
  }

  lemma StillSame(k: State, k1: State, k': State, t: Task)
    requires T(k1, t) == T(k, t).(prio := T(k1, t).prio) && T(k', t) == T(k1, t).(prio := T(k', t).prio)
    ensures T(k', t) == T(k, t).(prio := T(k', t).prio)
  {
  }

  /** os_task_tick_update, for each task: a sleeper with no more ticks to go than have passed is ready, out of every
      list; one with more has exactly that many fewer; anybody else is as before but for its priority. */
  lemma TickOutcome(k: State, ticks: nat, t: Task)
    requires Safe(k) && ticks > 0
    ensures var k' := TickUpdate(k, ticks);
            if Sleeping(T(k, t)) && DeltaList.TicksLeft(k.delay, t) <= ticks then RanOut(k, k', t) && t !in DeltaList.Ids(k'.delay)
            else T(k', t) == T(k, t).(prio := T(k', t).prio)
                 && (Sleeping(T(k, t)) ==>
                      t in DeltaList.Ids(k'.delay) && DeltaList.TicksLeft(k'.delay, t) == DeltaList.TicksLeft(k.delay, t) - ticks)
  {
    hide *;
    var due := DeltaList.Expired(k.delay, ticks);
    var k1 := k.(delay := DeltaList.Remaining(k.delay, ticks));
    SafeFacts(k);
    TickIs(k, ticks);
    EntriesOnce(k, t);
    TimerOutcomes.DueIs(k.delay, ticks, t);
    TickTakes(k, ticks);
    DelayIsNoObject(k, k1);
    SameProtocol(k, k1);
    OtherListsScheduled(k, k1);
    ExpireAllOutcome(k1, due, t);
    ExpireAllDelay(k1, due);
    SameT(k, k1, t);
    if t in due { RanOutBefore(k, k1, TickUpdate(k, ticks), t); }
  }

  lemma TickIs(k: State, ticks: nat)
    requires ticks > 0
    ensures TickUpdate(k, ticks) == ExpireAll(k.(delay := DeltaList.Remaining(k.delay, ticks)), DeltaList.Expired(k.delay, ticks))
  {
    hide ExpireAll;
  }

  lemma EntriesOnce(k: State, t: Task)
    requires Delayed(k)
    ensures multiset(DeltaList.Ids(k.delay))[t] == if Sleeping(T(k, t)) then 1 else 0
    ensures t in DeltaList.Ids(k.delay) <==> Sleeping(T(k, t))
  {
    var none: multiset<Task> := multiset{};
    assert Entries(k, t) + none[t] == if Sleeping(T(k, t)) then 1 else 0;
  }

  lemma DelayIsNoObject(k: State, k1: State)
    requires k1 == k.(delay := k1.delay)
    ensures SameObjects(k, k1)
  {
  }

  lemma OtherListsScheduled(k: State, k1: State)
    requires Scheduled(k) && k1 == k.(delay := k1.delay)
    ensures Scheduled(k1)
  {
    hide Structured, NoMissed;
    OtherListsKeep(k, k1, {});
  }

  lemma SameT(k: State, k1: State, t: Task)
    requires k1.tcb == k.tcb
    ensures T(k1, t) == T(k, t)
  {
  }

  lemma RanOutBefore(k: State, k1: State, k': State, t: Task)
    requires T(k1, t) == T(k, t) && RanOut(k1, k', t)
    ensures RanOut(k, k', t)
  {
  }

  /** The due are off the list already; taking them out of their waits removes nobody else's entry. */
  lemma {:induction false} ExpireAllDelay(k: State, due: seq<Task>)
    requires Protocol(k) && Scheduled(k) && DelayedBut(k, multiset(due))
    ensures ExpireAll(k, due).delay == k.delay
    decreases |due|
  {
    hide *;
    NextDue(k, due);
    if due != [] {
      var k1 := ExpireWait(k, due[0]);
      DueSleeps(k, due);
      ProtocolLinks(k);
      ExpireProtocol(k, due[0]);
      ExpireKeeps(k, due[0]);
      ExpireDelayed(k, due[0], multiset(due));
      ExpireAllDelay(k1, due[1..]);
      OneKeepsDelay(k, due);
    }
  }

  lemma OneKeepsDelay(k: State, due: seq<Task>)
    requires Linked(k) && due != [] && DelayedBut(k, multiset(due)) && Live(k, due[0])
    ensures ExpireWait(k, due[0]).delay == k.delay
  {
    var t := due[0];
    assert Entries(k, t) + multiset(due)[t] == if Sleeping(T(k, t)) then 1 else 0;
    assert multiset(due)[t] > 0;
    hide Linked, DelayedBut, Unlink, MakeReady, PreemptRequest;
    UnlinkDelay(k, t);
    LeaveDelay(k, t);
    DeltaList.RemoveMiss(k.delay, t);
    ReadyDelay(Unlink(k, t), t);
  }
}
