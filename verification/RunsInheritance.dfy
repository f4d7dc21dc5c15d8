/** Priority inheritance and deadlock freedom over whole runs. */
module RunsInheritance {
  import opened Sequences
  import opened Kernel
  import opened Links
  import opened Operations
  import opened Inheritance
  import opened InheritanceSteps
  import opened Scheduling
  import opened Preemption
  import opened Waking
  import opened NoLostWakeups
  import opened Timeouts
  import opened Deadlock
  import opened Runs
  import DeltaList

  // ---------- steps that move counters, lists and requests only ----------

  lemma SameSettled(k: State, k': State)
    requires Settled(k) && ChainsShort(k) && k'.tcb == k.tcb && k'.waiters == k.waiters && k'.mutexes == k.mutexes
    ensures Settled(k') && ChainsShort(k')
  {
    assert forall x :: T(k', x) == T(k, x) && NextTask(k', x) == NextTask(k, x);
    hide SettledBut, ChainsShort;
    AlikeSettled(k, k', {});
    ShortStaysShort(k, k');
  }

  lemma DispatchSettled(k: State, k': State)
    requires Settled(k) && OnlyDispatch(k, k')
    ensures Settled(k')
  {
    assert forall x :: T(k', x) == T(k, x).(state := T(k', x).state);
    hide SettledBut;
    AlikeSettled(k, k', {});
  }

  lemma {:induction false} ExpireAllSettled(k: State, due: seq<Task>)
    requires Protocol(k) && Scheduled(k) && DelayedBut(k, multiset(due)) && Settled(k) && ChainsShort(k)
    ensures Settled(ExpireAll(k, due))
    decreases |due|
  {
    hide Protocol, Scheduled, DelayedBut, Settled, ChainsShort;
    if due != [] {
      var t := due[0];
      DueSleeps(k, due);
      ProtocolLinks(k);
      ExpireProtocol(k, t);
      ExpireKeeps(k, t);
      ExpireDelayed(k, t, multiset(due));
      ExpireSettled(k, t);
      ExpireAllSettled(ExpireWait(k, t), due[1..]);
    }
  }

  lemma TickSettled(k: State, ticks: nat)
    requires Safe(k) && Settled(k) && ChainsShort(k)
    ensures Settled(TickUpdate(k, ticks))
  {
    if ticks != 0 {
      var k1 := k.(delay := DeltaList.Remaining(k.delay, ticks));
      hide Protocol, Structured, NoMissed, DelayedBut, Settled, ChainsShort;
      TickTakes(k, ticks);
      SameProtocol(k, k1);
      OtherListsKeep(k, k1, {});
      SameSettled(k, k1);
      ExpireAllSettled(k1, DeltaList.Expired(k.delay, ticks));
    }
  }

  // ---------- one step ----------

  lemma CountersSettled(k: State, k1: State, q: WaitQ, isr: bool)
    requires Linked(k) && Settled(k) && ChainsShort(k) && OnlyCounters(k, k1)
    ensures Settled(k1) && Settled(WaitEnd(k1, isr)) && Settled(WakeOne(k1, q)) && Settled(WaitEnd(WakeOne(k1, q), isr))
  {
    OnlyCountersLinked(k, k1);
    hide Linked, Settled, ChainsShort, WakeOne, WaitEnd;
    SameSettled(k, k1);
    WakeOneSettled(k1, q);
    WaitEndSettled(k1, isr);
    WaitEndSettled(WakeOne(k1, q), isr);
  }

  lemma CounterCallSettled(k: State, a: Action)
    requires Safe(k) && Settled(k) && Enabled(k, a) && ChainsShort(k)
    requires a.Give? || a.Take? || a.Send? || a.Receive?
    ensures Settled(Apply(k, a))
  {
    var c := Caller0(k);
    hide Protocol, Settled, ChainsShort, WakeOne, WaitEnd, WaitBegin, Scheduled, DelayedBut;
    ProtocolLinks(k);
    match a
    case Give(s) => CountersSettled(k, k.(sems := k.sems[s := S(k, s).(count := S(k, s).count + 1)]), OfSem(s), true);
    case Take(s, w, isr) =>
      CountersSettled(k, k, OfSem(s), isr);
      if S(k, s).count > 0 { CountersSettled(k, k.(sems := k.sems[s := S(k, s).(count := S(k, s).count - 1)]), OfSem(s), isr); }
      if !isr { PlainWaitSettled(k, c, OfSem(s), w); }
    case Send(q, w, isr) =>
      CountersSettled(k, k, Receivers(q), isr);
      CountersSettled(k, k.(queues := k.queues[q := Q(k, q).(count := Q(k, q).count + 1)]), Receivers(q), isr);
      if !isr { PlainWaitSettled(k, c, Senders(q), w); }
    case Receive(q, w, isr) =>
      CountersSettled(k, k, Senders(q), isr);
      if Q(k, q).count > 0 { CountersSettled(k, k.(queues := k.queues[q := Q(k, q).(count := Q(k, q).count - 1)]), Senders(q), isr); }
      if !isr { PlainWaitSettled(k, c, Receivers(q), w); }
  }

  lemma TaskCallSettled(k: State, a: Action)
    requires Safe(k) && Settled(k) && Enabled(k, a) && ChainsShort(k)
    requires a.Create? || a.Start? || a.Pause? || a.Delete? || a.SetPriority? || a.Wake?
    ensures Settled(Apply(k, a))
  {
    hide Protocol, Settled, ChainsShort, Scheduled, DelayedBut, TaskCreate, TaskStart, TaskPause, TaskDelete, PrioritySet, WakeBlocked;
    ProtocolLinks(k);
    match a
    case Create(t, p, system) => CreateSettled(k, t, p, system);
    case Start(t) => StartSettled(k, t);
    case Pause(t) => PauseSettled(k, t);
    case Delete(t) => DeleteSettled(k, t);
    case SetPriority(t, p) => PrioritySetSettled(k, t, p);
    case Wake(t) => WakeBlockedSettled(k, t);
  }

  lemma FreeWaitsForNothing(k: State)
    requires Linked(k) && Free(k)
    ensures T(k, Caller0(k)).waitList.None?
  {
    EdgesHold(k, Caller0(k));
  }

  lemma LockCallSettled(k: State, m: Mutex, w: Wait)
    requires Safe(k) && Settled(k) && Enabled(k, Lock(m, w)) && ChainsShort(k) && ChainsShort(Apply(k, Lock(m, w)))
    ensures Settled(Apply(k, Lock(m, w)))
  {
    var c := Caller0(k);
    ProtocolLinks(k);
    CallerFacts(k, c, OfMutex(m));
    hide Protocol, Settled, ChainsShort, Scheduled, DelayedBut, MutexLock;
    MutexLockSettled(k, c, m, w);
  }

  lemma UnlockFacts(k: State, m: Mutex)
    requires Safe(k) && Enabled(k, Unlock(m))
    ensures var c := Caller0(k); Linked(k) && Live(k, c) && c != IDLE && T(k, c).waitList.None? && T(k, c).blockedOn.None?
    ensures Apply(k, Unlock(m)) == MutexUnlock(k, Caller0(k), m).0
  {
    ProtocolLinks(k);
    FreeWaitsForNothing(k);
    hide Protocol, Scheduled, DelayedBut, MutexUnlock;
  }

  lemma UnlockCallSettled(k: State, m: Mutex)
    requires Safe(k) && Settled(k) && Enabled(k, Unlock(m)) && ChainsShort(k)
    ensures Settled(Apply(k, Unlock(m)))
  {
    hide *;
    UnlockFacts(k, m);
    UnlockSettled(k, Caller0(k), m);
  }

  lemma EndCalls(k: State, a: Action)
    requires Enabled(k, a) && (a.Depart? || a.GiveUp?)
    ensures TimedOutCaller(k)
  {
    hide TimedOutCaller;
  }

  lemma EndFacts(k: State)
    requires Safe(k) && TimedOutCaller(k)
    ensures var c := Caller0(k); Linked(k) && Live(k, c) && T(k, c).waitList.None?
    ensures Apply(k, Depart) == WaiterDepart(k, Caller0(k)) && Apply(k, GiveUp) == WaitTimedOut(k, Caller0(k))
  {
    ProtocolLinks(k);
    CallerFacts(k, Caller0(k), T(k, Caller0(k)).doing.value);
    hide Protocol, Scheduled, DelayedBut, WaitTimedOut, WaiterDepart;
  }

  lemma EndCallSettled(k: State)
    requires Safe(k) && Settled(k) && TimedOutCaller(k) && ChainsShort(k)
    ensures Settled(Apply(k, Depart)) && Settled(Apply(k, GiveUp))
  {
    hide *;
    EndFacts(k);
    DepartSettled(k, Caller0(k));
    TimedOutSettled(k, Caller0(k));
  }

  lemma MutexCallSettled(k: State, a: Action)
    requires Safe(k) && Settled(k) && Enabled(k, a) && ChainsShort(k) && ChainsShort(Apply(k, a))
    requires a.Lock? || a.Unlock? || a.Depart? || a.GiveUp?
    ensures Settled(Apply(k, a))
  {
    hide *;
    if a.Lock? { LockCallSettled(k, a.m, a.w); }
    else if a.Unlock? { UnlockCallSettled(k, a.m); }
    else { EndCalls(k, a); EndCallSettled(k); }
  }

  lemma SwitchSettled(k: State)
    requires Scheduled(k) && Settled(k)
    ensures Settled(PendSv(k))
  {
    hide Scheduled, PendSv, OnlyDispatch, Settled;
    PendSvKeeps(k);
    DispatchSettled(k, PendSv(k));
  }

  lemma LockCountSettled(k: State)
    requires Settled(k) && ChainsShort(k)
    ensures Settled(KernelLock(k)) && Settled(KernelUnlock(k))
  {
    UnlockIs(k);
    hide KernelUnlock, Settled, ChainsShort;
    SameSettled(k, KernelLock(k));
    SameSettled(k, KernelUnlock(k));
  }

  /** Every step leaves every task at the priority inheritance owes it, as long as wait chains are
      acyclic and short before and after it. */
  lemma StepSettles(k: State, a: Action)
    requires Safe(k) && Settled(k) && Enabled(k, a) && ChainsShort(k) && ChainsShort(Apply(k, a))
    ensures Settled(Apply(k, a))
  {
    var c := Caller0(k);
    if a.Create? || a.Start? || a.Pause? || a.Delete? || a.SetPriority? || a.Wake? { hide Safe, Settled, ChainsShort, Apply, Enabled; TaskCallSettled(k, a); }
    else if a.Give? || a.Take? || a.Send? || a.Receive? { hide Safe, Settled, ChainsShort, Apply, Enabled; CounterCallSettled(k, a); }
    else if a.Lock? || a.Unlock? || a.Depart? || a.GiveUp? { hide Safe, Settled, ChainsShort, Apply, Enabled; MutexCallSettled(k, a); }
    else {
      hide Protocol, Settled, ChainsShort, Scheduled, DelayedBut, KernelLock, KernelUnlock, PendSv, TickUpdate, Sleep, SwitchRequest;
      match a
      case SleepFor(w) => SleepSettled(k, c, w);
      case Yield => RequestSettled(k);
      case SetMode(q, mode) => SameSettled(k, Apply(k, a));
      case Tick(ticks) => TickSettled(k, ticks);
      case Switch => SwitchSettled(k);
      case LockScheduler => LockCountSettled(k);
      case UnlockScheduler => LockCountSettled(k);
    }
  }

  /** Every state of the run has acyclic wait chains of at most MAX_DEPTH tasks. */
  ghost predicate ShortRun(k: State, actions: seq<Action>)
    decreases |actions|
  {
    ChainsShort(k) && (actions != [] ==> ShortRun(Apply(k, actions[0]), actions[1..]))
  }

  /** Over whole runs: at every point, every task's effective priority is the maximum of its base
      priority and of every task waiting on a mutex it owns. */
  lemma {:induction false} EveryReachableStateIsSettled(k: State, actions: seq<Action>)
    requires Safe(k) && Settled(k) && IsRun(k, actions) && ShortRun(k, actions)
    ensures Settled(After(k, actions))
    ensures forall t :: Live(After(k, actions), t) ==> IsOwed(After(k, actions), t, T(After(k, actions), t).prio)
    decreases |actions|
  {
    if actions != [] {
      var k1 := Apply(k, actions[0]);
      assert ChainsShort(k) && ChainsShort(k1);
      hide Safe, Enabled, Apply, Settled, ChainsShort, IsOwed;
      StepIsSafe(k, actions[0]);
      StepSettles(k, actions[0]);
      EveryReachableStateIsSettled(k1, actions[1..]);
    } else {
      forall t | Live(k, t) ensures IsOwed(k, t, T(k, t).prio) {
        assert Effective(k, t) == T(k, t).prio;
        hide Effective, IsOwed;
        EffectiveIsOwed(k, t, T(k, t).prio);
      }
    }
  }

  // ---------- deadlock ----------

  /** An unbounded wait for a mutex is entered only after the check answered no. */
  predicate Cleared(k: State, a: Action) {
    (a.Lock? && a.w.Forever? && M(k, a.m).locked && M(k, a.m).owner != Caller0(k) && CanBlock(k, false))
    ==> !DeadlockCheck(k, Caller0(k), a.m)
  }

  predicate ClearedRun(k: State, actions: seq<Action>)
    decreases |actions|
  {
    actions == [] || (Cleared(k, actions[0]) && ClearedRun(Apply(k, actions[0]), actions[1..]))
  }

  lemma SameSafe(k: State, k': State)
    requires NoForeverCycle(k) && k'.tcb == k.tcb && k'.mutexes == k.mutexes
    ensures NoForeverCycle(k')
  {
    assert forall x :: T(k', x) == T(k, x);
    hide NoForeverCycle;
    SameWaits(k, k');
  }

  lemma DispatchCycles(k: State, k': State)
    requires NoForeverCycle(k) && OnlyDispatch(k, k')
    ensures NoForeverCycle(k')
  {
    assert forall x :: T(k', x) == T(k, x).(state := T(k', x).state);
    hide NoForeverCycle;
    SameWaits(k, k');
  }

  lemma {:induction false} ExpireAllCycles(k: State, due: seq<Task>)
    requires Protocol(k) && Scheduled(k) && DelayedBut(k, multiset(due)) && NoForeverCycle(k)
    ensures NoForeverCycle(ExpireAll(k, due))
    decreases |due|
  {
    hide Protocol, Scheduled, DelayedBut, NoForeverCycle, Becomes;
    if due != [] {
      var t := due[0];
      DueSleeps(k, due);
      ProtocolLinks(k);
      ExpireProtocol(k, t);
      ExpireKeeps(k, t);
      ExpireDelayed(k, t, multiset(due));
      ExpireWaitFrame(k, t);
      EdgesHold(k, t);
      BecomesSafe(k, ExpireWait(k, t), t, Left(T(k, t)).(state := Ready));
      ExpireAllCycles(ExpireWait(k, t), due[1..]);
    }
  }

  lemma TickCycles(k: State, ticks: nat)
    requires Safe(k) && NoForeverCycle(k)
    ensures NoForeverCycle(TickUpdate(k, ticks))
  {
    if ticks != 0 {
      var k1 := k.(delay := DeltaList.Remaining(k.delay, ticks));
      hide Protocol, Structured, NoMissed, DelayedBut, NoForeverCycle;
      TickTakes(k, ticks);
      SameProtocol(k, k1);
      OtherListsKeep(k, k1, {});
      SameSafe(k, k1);
      ExpireAllCycles(k1, DeltaList.Expired(k.delay, ticks));
    }
  }

  lemma CountersCycles(k: State, k1: State, q: WaitQ, isr: bool)
    requires Linked(k) && NoForeverCycle(k) && OnlyCounters(k, k1)
    ensures NoForeverCycle(k1) && NoForeverCycle(WaitEnd(k1, isr)) && NoForeverCycle(WakeOne(k1, q)) && NoForeverCycle(WaitEnd(WakeOne(k1, q), isr))
  {
    OnlyCountersLinked(k, k1);
    hide Linked, NoForeverCycle, WakeOne, WaitEnd;
    SameSafe(k, k1);
    WakeOneSafe(k1, q);
    WaitEndSafe(k1, isr);
    WaitEndSafe(WakeOne(k1, q), isr);
  }

  lemma PlainWaitCycles(k: State, c: Task, q: WaitQ, w: Wait)
    requires Protocol(k) && Caller(k, c, q) && !q.OfMutex? && NoForeverCycle(k)
    ensures Avail(k, q) == 0 ==> NoForeverCycle(WaitBegin(k, c, q, w))
  {
    CallerFacts(k, c, q);
    hide Protocol, NoForeverCycle, WaitBegin, Becomes, Avail;
    if Avail(k, q) == 0 {
      PlainWaitStep(k, c, q, w);
      BecomesSafe(k, WaitBegin(k, c, q, w), c, Queueing(T(k, c), q, w));
    }
  }

  lemma CounterCallCycles(k: State, a: Action)
    requires Safe(k) && NoForeverCycle(k) && Enabled(k, a)
    requires a.Give? || a.Take? || a.Send? || a.Receive?
    ensures NoForeverCycle(Apply(k, a))
  {
    var c := Caller0(k);
    hide Protocol, NoForeverCycle, WakeOne, WaitEnd, WaitBegin, Scheduled, DelayedBut;
    ProtocolLinks(k);
    match a
    case Give(s) => CountersCycles(k, k.(sems := k.sems[s := S(k, s).(count := S(k, s).count + 1)]), OfSem(s), true);
    case Take(s, w, isr) =>
      CountersCycles(k, k, OfSem(s), isr);
      if S(k, s).count > 0 { CountersCycles(k, k.(sems := k.sems[s := S(k, s).(count := S(k, s).count - 1)]), OfSem(s), isr); }
      if !isr { PlainWaitCycles(k, c, OfSem(s), w); }
    case Send(q, w, isr) =>
      CountersCycles(k, k, Receivers(q), isr);
      CountersCycles(k, k.(queues := k.queues[q := Q(k, q).(count := Q(k, q).count + 1)]), Receivers(q), isr);
      if !isr { PlainWaitCycles(k, c, Senders(q), w); }
    case Receive(q, w, isr) =>
      CountersCycles(k, k, Senders(q), isr);
      if Q(k, q).count > 0 { CountersCycles(k, k.(queues := k.queues[q := Q(k, q).(count := Q(k, q).count - 1)]), Senders(q), isr); }
      if !isr { PlainWaitCycles(k, c, Receivers(q), w); }
  }

  lemma TaskCallCycles(k: State, a: Action)
    requires Safe(k) && NoForeverCycle(k) && Enabled(k, a)
    requires a.Create? || a.Start? || a.Pause? || a.Delete? || a.SetPriority? || a.Wake?
    ensures NoForeverCycle(Apply(k, a))
  {
    ProtocolLinks(k);
    if !a.Create? && Live(k, a.t) { EdgesHold(k, a.t); }
    hide Protocol, NoForeverCycle, Scheduled, DelayedBut, TaskCreate, TaskStart, TaskPause, TaskDelete, WakeBlocked, Becomes, PriorityRecompute;
    match a
    case Create(t, p, system) => CreateSafe(k, t, p, system);
    case Start(t) =>
      TaskStartFrame(k, t);
      BecomesSafe(k, TaskStart(k, t), t, Started(Left(T(k, t)), T(k, t).state == Blocked, k.current == Some(t)));
    case Pause(t) => PauseSafe(k, t);
    case Delete(t) => DeleteSafe(k, t);
    case SetPriority(t, p) =>
      PrioritySetTaskFrame(k, t, p);
      if !T(k, t).system { BecomesSafe(k, PrioritySet(k, t, p), t, T(k, t).(base := p)); }
    case Wake(t) =>
      if Live(k, t) && T(k, t).state == Blocked {
        WakeBlockedFrame(k, t);
        BecomesSafe(k, WakeBlocked(k, t), t, Left(T(k, t)).(signaled := true, state := Ready));
      } else { WakeNobody(k, t); }
  }

  lemma WakeNobody(k: State, t: Task)
    requires !Live(k, t) || T(k, t).state != Blocked
    ensures WakeBlocked(k, t) == k
  {
  }

  lemma MutexCallCycles(k: State, a: Action)
    requires Safe(k) && NoForeverCycle(k) && Enabled(k, a) && Cleared(k, a)
    requires a.Lock? || a.Unlock? || a.Depart? || a.GiveUp?
    ensures NoForeverCycle(Apply(k, a))
  {
    var c := Caller0(k);
    ProtocolLinks(k);
    if a.Unlock? { FreeWaitsForNothing(k); }
    else { CallerFacts(k, c, if a.Lock? then OfMutex(a.m) else T(k, c).doing.value); }
    hide Protocol, NoForeverCycle, Scheduled, DelayedBut, MutexLock, MutexUnlock, WaitTimedOut, WaiterDepart, DeadlockCheck;
    match a
    case Lock(m, w) => MutexLockSafe(k, c, m, w);
    case Unlock(m) => MutexUnlockSafe(k, c, m);
    case Depart => DepartSafe(k, c);
    case GiveUp => GiveUpCycles(k, c);
  }

  lemma GiveUpCycles(k: State, c: Task)
    requires Linked(k) && Live(k, c) && T(k, c).waitList.None? && NoForeverCycle(k)
    ensures NoForeverCycle(WaitTimedOut(k, c))
  {
    hide Linked, NoForeverCycle, WaitEnd, WaiterDepart;
    DepartSafe(k, c);
    WaitEndSafe(WaiterDepart(k, c), false);
    WaitEndSafe(k, false);
  }

  lemma SleepCycles(k: State, c: Task, w: Wait)
    requires Linked(k) && Live(k, c) && T(k, c).waitList.None? && NoForeverCycle(k)
    ensures NoForeverCycle(Sleep(k, c, w))
  {
    if k.lockCount == 0 && (w.For? || w.Forever?) {
      SleepFrame(k, c, w);
      hide Linked, Becomes, NoForeverCycle, Sleep;
      BecomesSafe(k, Sleep(k, c, w), c, T(k, c).(state := Blocked, timed := w.For?));
    }
  }

  lemma SwitchCycles(k: State)
    requires Scheduled(k) && NoForeverCycle(k)
    ensures NoForeverCycle(PendSv(k))
  {
    hide Scheduled, PendSv, OnlyDispatch, NoForeverCycle;
    PendSvKeeps(k);
    DispatchCycles(k, PendSv(k));
  }

  lemma LockCountCycles(k: State)
    requires NoForeverCycle(k)
    ensures NoForeverCycle(KernelLock(k)) && NoForeverCycle(KernelUnlock(k))
  {
    UnlockIs(k);
    hide KernelUnlock, NoForeverCycle;
    SameSafe(k, KernelLock(k));
    SameSafe(k, KernelUnlock(k));
  }

  lemma StepKeepsFree(k: State, a: Action)
    requires Safe(k) && NoForeverCycle(k) && Enabled(k, a) && Cleared(k, a)
    ensures NoForeverCycle(Apply(k, a))
  {
    var c := Caller0(k);
    if a.Create? || a.Start? || a.Pause? || a.Delete? || a.SetPriority? || a.Wake? { hide Safe, NoForeverCycle, Apply, Enabled; TaskCallCycles(k, a); }
    else if a.Give? || a.Take? || a.Send? || a.Receive? { hide Safe, NoForeverCycle, Apply, Enabled; CounterCallCycles(k, a); }
    else if a.Lock? || a.Unlock? || a.Depart? || a.GiveUp? { hide Safe, NoForeverCycle, Apply, Enabled, Cleared; MutexCallCycles(k, a); }
    else {
      ProtocolLinks(k);
      if a.SleepFor? { FreeWaitsForNothing(k); }
      hide Protocol, NoForeverCycle, Scheduled, DelayedBut, KernelLock, KernelUnlock, PendSv, TickUpdate, Sleep, SwitchRequest;
      match a
      case SleepFor(w) => SleepCycles(k, c, w);
      case Yield => RequestSafe(k);
      case SetMode(q, mode) => SameSafe(k, Apply(k, a));
      case Tick(ticks) => TickCycles(k, ticks);
      case Switch => SwitchCycles(k);
      case LockScheduler => LockCountCycles(k);
      case UnlockScheduler => LockCountCycles(k);
    }
  }

  /** Over whole runs: when every unbounded wait was cleared by the check, no reachable state contains a
      cycle of MAX_DEPTH or fewer mutexes made only of unbounded waits. */
  lemma {:induction false} NoReachableDeadlock(k: State, actions: seq<Action>)
    requires Safe(k) && NoForeverCycle(k) && IsRun(k, actions) && ClearedRun(k, actions)
    ensures NoForeverCycle(After(k, actions))
    decreases |actions|
  {
    hide Safe, Enabled, Apply, NoForeverCycle, Cleared;
    if actions != [] {
      StepIsSafe(k, actions[0]);
      StepKeepsFree(k, actions[0]);
      NoReachableDeadlock(Apply(k, actions[0]), actions[1..]);
    }
  }
}
