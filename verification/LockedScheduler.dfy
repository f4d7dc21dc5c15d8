/** What os_kernel_lock promises: until the matching unlock, whatever interrupts, ticks, wakes and calls come, the
    processor stays with the task that locked the scheduler. */
module LockedScheduler {
  import opened Sequences
  import opened Kernel
  import opened Links
  import opened Operations
  import opened Inheritance
  import opened Scheduling
  import opened Preemption
  import opened Waking
  import opened NoLostWakeups
  import opened Timeouts
  import opened Runs
  import opened Ledgers
  import opened Outcomes
  import opened TaskOutcomes
  import DeltaList

  /** Same task on the processor, same lock count. */
  predicate Keeps(k: State, k': State) { k'.current == k.current && k'.lockCount == k.lockCount }

  lemma KeepsTwice(a: State, b: State, c: State)
    requires Keeps(a, b) && Keeps(b, c)
    ensures Keeps(a, c)
  {
  }

  lemma BecomesKeeps(k: State, k': State, t: Task, r: Tcb)
    requires Becomes(k, k', t, r)
    ensures Keeps(k, k')
  {
  }

  lemma EndKeeps(k: State, isr: bool)
    ensures Keeps(k, WaitEnd(k, isr))
  {
  }

  lemma RequestKeepsBoth(k: State)
    ensures Keeps(k, SwitchRequest(k))
  {
  }

  lemma WakeKeeps(k: State, q: WaitQ)
    requires Linked(k)
    ensures Keeps(k, WakeOne(k, q))
  {
    hide Linked, WakeOne;
    WakeOneSame(k, q);
  }

  lemma WakeEndKeeps(k: State, k1: State, q: WaitQ, isr: bool)
    requires Linked(k1) && Keeps(k, k1)
    ensures Keeps(k, WaitEnd(WakeOne(k1, q), isr)) && Keeps(k, WakeOne(k1, q))
  {
    hide *;
    WakeKeeps(k1, q);
    EndKeeps(WakeOne(k1, q), isr);
    KeepsTwice(k, k1, WakeOne(k1, q));
    KeepsTwice(k, WakeOne(k1, q), WaitEnd(WakeOne(k1, q), isr));
  }

  lemma CountersKeep(k: State, k1: State)
    requires OnlyCounters(k, k1)
    ensures Keeps(k, k1)
  {
  }

  // ---------- calls that could have waited ----------

  lemma NobodyWaits(k: State, w: Wait, isr: bool)
    requires k.lockCount > 0
    ensures !MayWait(k, w, isr) && MustNotWait(k, w, isr) && !WaitedOut(k, w, isr)
  {
  }

  lemma GiveKeeps(k: State, s: nat)
    requires Linked(k)
    ensures Keeps(k, SemGive(k, s).0)
  {
    hide *;
    GiveArms(k, s);
    Itself(k);
    var k1 := WithSem(k, s, S(k, s).count + 1);
    OnlyCountersLinked(k, k1);
    CountersKeep(k, k1);
    WakeEndKeeps(k, k1, OfSem(s), true);
  }

  lemma Itself(k: State)
    ensures Keeps(k, k)
  {
  }

  lemma TakeKeeps(k: State, c: Task, s: nat, w: Wait, isr: bool)
    requires k.lockCount > 0
    ensures Keeps(k, SemTake(k, c, s, w, isr).0)
  {
    hide *;
    NobodyWaits(k, w, isr);
    TakeArms(k, c, s, w, isr);
    EndKeeps(k, isr);
    if S(k, s).count > 0 { TakenKeeps(k, s, isr); }
  }

  lemma TakenKeeps(k: State, s: nat, isr: bool)
    requires S(k, s).count > 0
    ensures Keeps(k, WaitEnd(WithSem(k, s, S(k, s).count - 1), isr))
  {
    hide WaitEnd;
    EndKeeps(WithSem(k, s, S(k, s).count - 1), isr);
  }

  lemma SendKeeps(k: State, c: Task, q: nat, w: Wait, isr: bool)
    requires Linked(k) && k.lockCount > 0
    ensures Keeps(k, QueueSend(k, c, q, w, isr).0)
  {
    hide *;
    NobodyWaits(k, w, isr);
    SendAnswers(k, c, q, w, isr);
    EndKeeps(k, isr);
    Itself(k);
    WakeEndKeeps(k, k, Receivers(q), isr);
    if Q(k, q).count < Q(k, q).capacity {
      var k1 := WithQueue(k, q, Q(k, q).count + 1);
      QueueCounts(k, q, Q(k, q).count + 1, Receivers(q));
      OnlyCountersLinked(k, k1);
      CountersKeep(k, k1);
      WakeEndKeeps(k, k1, Receivers(q), isr);
    }
  }

  lemma ReceiveKeeps(k: State, c: Task, q: nat, w: Wait, isr: bool)
    requires Linked(k) && k.lockCount > 0
    ensures Keeps(k, QueueReceive(k, c, q, w, isr).0)
  {
    hide *;
    NobodyWaits(k, w, isr);
    ReceiveAnswers(k, c, q, w, isr);
    EndKeeps(k, isr);
    if Q(k, q).count > 0 {
      var k1 := WithQueue(k, q, Q(k, q).count - 1);
      QueueCounts(k, q, Q(k, q).count - 1, Senders(q));
      OnlyCountersLinked(k, k1);
      CountersKeep(k, k1);
      WakeEndKeeps(k, k1, Senders(q), isr);
    }
  }

  // ---------- mutexes ----------

  lemma DepartKeeps(k: State, t: Task)
    requires Linked(k) && Live(k, t) && T(k, t).waitList.None?
    ensures Keeps(k, WaiterDepart(k, t))
  {
    hide Linked, WaiterDepart, Becomes;
    WaiterDepartFrame(k, t);
    BecomesKeeps(k, WaiterDepart(k, t), t, Released(T(k, t)));
  }

  lemma LinkKeeps(k: State, c: Task, m: Mutex)
    requires Linked(k) && Live(k, c) && !M(k, m).locked
    ensures Keeps(k, OwnerLink(WithMutex(k, m, MutexObj(true, c)), c, m))
  {
    var k0 := WithMutex(k, m, MutexObj(true, c));
    assert Keeps(k, k0);
    hide Linked, OwnerLink, Becomes, OnlyPriorities, Keeps;
    OwnerLinkFrame(k, c, m);
    BecomesKeeps(k0, OwnerLink(k0, c, m), c, T(k, c).(owned := T(k, c).owned + [m]));
    KeepsTwice(k, k0, OwnerLink(k0, c, m));
  }

  lemma LockKeeps(k: State, c: Task, m: Mutex, w: Wait)
    requires Safe(k) && Caller(k, c, OfMutex(m)) && k.lockCount > 0
    ensures Keeps(k, MutexLock(k, c, m, w).0)
  {
    hide *;
    SafeFacts(k);
    CallerRuns(k, c, OfMutex(m));
    NobodyWaits(k, w, false);
    LockAnswers(k, c, m, w);
    if !M(k, m).locked {
      var k1 := OwnerLink(WithMutex(k, m, MutexObj(true, c)), c, m);
      LinkKeeps(k, c, m);
      EndKeeps(k1, false);
      KeepsTwice(k, k1, WaitEnd(k1, false));
    } else {
      DepartKeeps(k, c);
      EndKeeps(WaiterDepart(k, c), false);
      KeepsTwice(k, WaiterDepart(k, c), WaitEnd(WaiterDepart(k, c), false));
    }
  }

  lemma UnlockKeeps(k: State, c: Task, m: Mutex)
    requires Safe(k) && Live(k, c) && c != IDLE
    ensures Keeps(k, MutexUnlock(k, c, m).0)
  {
    hide *;
    SafeFacts(k);
    UnlockAnswers(k, c, m);
    Itself(k);
    if M(k, m).locked && M(k, m).owner == c {
      var k1 := OwnerUnlink(WithMutex(k, m, MutexObj(false, 0)), c, m);
      UnlinkOwnerKeeps(k, c, m);
      UnlockedDelay(k, c, m);
      WakeEndKeeps(k, k1, OfMutex(m), true);
    }
  }

  lemma UnlinkOwnerKeeps(k: State, c: Task, m: Mutex)
    requires Linked(k) && Live(k, c) && M(k, m).locked && M(k, m).owner == c
    ensures Keeps(k, OwnerUnlink(WithMutex(k, m, MutexObj(false, 0)), c, m))
  {
    var k0 := WithMutex(k, m, MutexObj(false, 0));
    assert Keeps(k, k0);
    hide Linked, OwnerUnlink, Becomes, OnlyPriorities, Without, Keeps;
    OwnerUnlinkFrame(k, c, m);
    BecomesKeeps(k0, OwnerUnlink(k0, c, m), c, T(k, c).(owned := Without(T(k, c).owned, m)));
    KeepsTwice(k, k0, OwnerUnlink(k0, c, m));
  }

  lemma GiveUpKeeps(k: State, c: Task, q: WaitQ)
    requires Safe(k) && Caller(k, c, q) && T(k, c).doing == Some(q)
    ensures Keeps(k, WaitTimedOut(k, c))
  {
    hide *;
    SafeFacts(k);
    CallerRuns(k, c, q);
    TimedOutIs(k, c, q);
    DepartKeeps(k, c);
    EndKeeps(k, false);
    EndKeeps(WaiterDepart(k, c), false);
    KeepsTwice(k, WaiterDepart(k, c), WaitEnd(WaiterDepart(k, c), false));
  }

  // ---------- the task calls ----------

  lemma StartKeeps(k: State, t: Task)
    requires Linked(k) && Live(k, t)
    ensures Keeps(k, TaskStart(k, t))
  {
    hide Linked, TaskStart, Becomes;
    TaskStartFrame(k, t);
    BecomesKeeps(k, TaskStart(k, t), t, Started(Left(T(k, t)), T(k, t).state == Blocked, k.current == Some(t)));
  }

  lemma PauseKeeps(k: State, t: Task)
    requires Linked(k) && Live(k, t) && k.lockCount > 0
    ensures Keeps(k, TaskPause(k, t))
  {
    hide Linked, TaskPause, Park, WakeCompensate, Becomes;
    PauseInSteps(k, t);
    if !Refused(k, t) {
      CompensateFrame(k, t);
      ParkFrame(WakeCompensate(k, t), t);
      var k1 := WakeCompensate(k, t);
      BecomesKeeps(k1, Park(k1, t), t, Left(T(k1, t)).(signaled := T(k1, t).signaled || T(k1, t).state == Blocked, state := Suspended));
    }
  }

  lemma DeleteKeeps(k: State, t: Task)
    requires Linked(k) && Live(k, t) && T(k, t).owned == [] && k.lockCount > 0
    ensures Keeps(k, TaskDelete(k, t))
  {
    hide Linked, TaskDelete, Unlink, WakeCompensate, Becomes;
    DeleteInSteps(k, t);
    if !Refused(k, t) {
      CompensateFrame(k, t);
      var k1 := WakeCompensate(k, t);
      UnlinkFrame(k1, t);
      BecomesKeeps(k1, Unlink(k1, t), t, Left(T(k1, t)));
    }
  }

  lemma SetKeeps(k: State, t: Task, p: nat)
    requires Linked(k) && Live(k, t)
    ensures Keeps(k, PrioritySet(k, t, p))
  {
    hide Linked, PriorityRecompute, Becomes;
    if !T(k, t).system {
      PrioritySetTaskFrame(k, t, p);
      BecomesKeeps(k, PrioritySet(k, t, p), t, T(k, t).(base := p));
    }
  }

  lemma ForcedKeeps(k: State, t: Task)
    requires Linked(k)
    ensures Keeps(k, WakeBlocked(k, t))
  {
    hide Linked, Becomes, Unlink;
    if Live(k, t) && T(k, t).state == Blocked {
      WakeBlockedFrame(k, t);
      hide WakeBlocked;
      BecomesKeeps(k, WakeBlocked(k, t), t, Left(T(k, t)).(signaled := true, state := Ready));
    }
  }

  lemma {:induction false} ExpireAllKeeps(k: State, due: seq<Task>)
    requires Protocol(k) && Scheduled(k) && DelayedBut(k, multiset(due))
    ensures Keeps(k, ExpireAll(k, due))
    decreases |due|
  {
    hide *;
    NextDue(k, due);
    Itself(k);
    if due != [] {
      var k1 := ExpireWait(k, due[0]);
      DueSleeps(k, due);
      ProtocolLinks(k);
      ExpireProtocol(k, due[0]);
      ExpireKeeps(k, due[0]);
      ExpireDelayed(k, due[0], multiset(due));
      ExpireAllKeeps(k1, due[1..]);
      OneExpiryKeeps(k, due[0]);
      KeepsTwice(k, k1, ExpireAll(k, due));
    }
  }

  lemma OneExpiryKeeps(k: State, t: Task)
    requires Linked(k) && Live(k, t)
    ensures Keeps(k, ExpireWait(k, t))
  {
    hide Linked, Becomes, ExpireWait;
    ExpireWaitFrame(k, t);
    BecomesKeeps(k, ExpireWait(k, t), t, Left(T(k, t)).(state := Ready));
  }

  lemma TickKeepsBoth(k: State, ticks: nat)
    requires Safe(k)
    ensures Keeps(k, TickUpdate(k, ticks))
  {
    hide *;
    SafeFacts(k);
    if ticks > 0 {
      var k1 := k.(delay := DeltaList.Remaining(k.delay, ticks));
      TickIs(k, ticks);
      TickTakes(k, ticks);
      DelayIsNoObject(k, k1);
      SameProtocol(k, k1);
      OtherListsScheduled(k, k1);
      ExpireAllKeeps(k1, DeltaList.Expired(k.delay, ticks));
      DelayKeeps(k, k1);
      KeepsTwice(k, k1, TickUpdate(k, ticks));
    } else {
      NoTick(k);
    }
  }

  lemma NoTick(k: State)
    ensures TickUpdate(k, 0) == k && Keeps(k, k)
  {
  }

  lemma DelayKeeps(k: State, k1: State)
    requires k1 == k.(delay := k1.delay)
    ensures Keeps(k, k1)
  {
  }

  // ---------- any step, any run ----------

  /** How deep the scheduler is locked after a step. */
  function Nesting(n: nat, a: Action): nat {
    match a case LockScheduler => n + 1 case UnlockScheduler => if n > 0 then n - 1 else 0 case _ => n
  }

  lemma LockedIsDeferred(k: State)
    requires Scheduled(k) && k.lockCount > 0
    ensures Deferred(k) && (k.current == Some(IDLE) || (k.current.Some? && T(k, k.current.value).state == Running))
  {
  }

  lemma SwitchKeeps(k: State)
    requires Scheduled(k) && k.lockCount > 0
    ensures Keeps(k, PendSv(k)) && PendSv(k).switchPending
  {
    LockedIsDeferred(k);
    hide Scheduled, PendSv;
    PendSvKeeps(k);
  }

  lemma CreateKeeps(k: State, t: Task, p: nat, system: bool)
    ensures Keeps(k, TaskCreate(k, t, p, system))
  {
  }

  lemma SleepKeepsBoth(k: State, c: Task, w: Wait)
    requires k.lockCount > 0
    ensures Keeps(k, Sleep(k, c, w))
  {
  }

  lemma PlainStepKeeps(k: State, a: Action)
    requires k.lockCount > 0 && (a.Create? || a.SleepFor? || a.Yield? || a.SetMode?)
    ensures Keeps(k, Apply(k, a))
  {
    hide SwitchRequest, Sleep, TaskCreate;
    match a
    case Create(t, p, system) => CreateKeeps(k, t, p, system);
    case SleepFor(w) => SleepKeepsBoth(k, Caller0(k), w);
    case Yield => RequestKeepsBoth(k);
    case SetMode(q, mode) =>
  }

  lemma LockStepNests(k: State, a: Action)
    requires k.lockCount > 0 && (a.LockScheduler? || a.UnlockScheduler?)
    ensures Apply(k, a).current == k.current && Apply(k, a).lockCount == Nesting(k.lockCount, a)
  {
    if a.UnlockScheduler? { UnlockIs(k); }
    hide KernelUnlock;
  }

  lemma TaskStepKeeps(k: State, a: Action)
    requires Safe(k) && Enabled(k, a) && k.lockCount > 0 && (a.Start? || a.Pause? || a.Delete? || a.SetPriority? || a.Wake?)
    ensures Keeps(k, Apply(k, a))
  {
    SafeFacts(k);
    hide Safe, Linked, Protocol, Scheduled, Delayed, TaskStart, TaskPause, TaskDelete, PrioritySet, WakeBlocked, Keeps;
    match a
    case Start(t) => StartKeeps(k, t);
    case Pause(t) => PauseKeeps(k, t);
    case Delete(t) => DeleteKeeps(k, t);
    case SetPriority(t, p) => SetKeeps(k, t, p);
    case Wake(t) => ForcedKeeps(k, t);
  }

  lemma MutexStepKeeps(k: State, a: Action)
    requires Safe(k) && Enabled(k, a) && k.lockCount > 0 && (a.Lock? || a.Unlock?)
    ensures Keeps(k, Apply(k, a))
  {
    hide Safe, MutexLock, MutexUnlock, Keeps;
    match a
    case Lock(m, w) => LockKeeps(k, Caller0(k), m, w);
    case Unlock(m) => UnlockKeeps(k, Caller0(k), m);
  }

  lemma CounterStepKeeps(k: State, a: Action)
    requires Linked(k) && k.lockCount > 0 && (a.Give? || a.Take? || a.Send? || a.Receive?)
    ensures Keeps(k, Apply(k, a))
  {
    hide Linked, SemGive, SemTake, QueueSend, QueueReceive, Keeps;
    match a
    case Give(s) => GiveKeeps(k, s);
    case Take(s, w, isr) => TakeKeeps(k, Caller0(k), s, w, isr);
    case Send(q, w, isr) => SendKeeps(k, Caller0(k), q, w, isr);
    case Receive(q, w, isr) => ReceiveKeeps(k, Caller0(k), q, w, isr);
  }

  lemma LateStepKeeps(k: State, a: Action)
    requires Safe(k) && Enabled(k, a) && k.lockCount > 0 && (a.Depart? || a.GiveUp?)
    ensures Keeps(k, Apply(k, a))
  {
    hide Safe, Linked, WaiterDepart, WaitTimedOut, Keeps;
    var c := Caller0(k);
    assert Caller(k, c, T(k, c).doing.value) && T(k, c).doing == Some(T(k, c).doing.value);
    if a.Depart? {
      SafeFacts(k);
      CallerRuns(k, c, T(k, c).doing.value);
      DepartKeeps(k, c);
    } else {
      GiveUpKeeps(k, c, T(k, c).doing.value);
    }
  }

  lemma ClockStepKeeps(k: State, a: Action)
    requires Safe(k) && k.lockCount > 0 && (a.Tick? || a.Switch?)
    ensures Keeps(k, Apply(k, a))
  {
    SafeFacts(k);
    hide Safe, Linked, Protocol, Scheduled, Delayed, TickUpdate, PendSv, Keeps;
    if a.Tick? { TickKeepsBoth(k, a.ticks); } else { SwitchKeeps(k); }
  }

  /** Under the lock no step takes the processor away, and only lock and unlock change how deep it is. */
  lemma LockedStep(k: State, a: Action)
    requires Safe(k) && Enabled(k, a) && k.lockCount > 0
    ensures Apply(k, a).current == k.current && Apply(k, a).lockCount == Nesting(k.lockCount, a)
  {
    hide Safe, Enabled, Apply;
    if a.LockScheduler? || a.UnlockScheduler? { LockStepNests(k, a); }
    else if a.Create? || a.SleepFor? || a.Yield? || a.SetMode? { PlainStepKeeps(k, a); }
    else if a.Start? || a.Pause? || a.Delete? || a.SetPriority? || a.Wake? { TaskStepKeeps(k, a); }
    else if a.Lock? || a.Unlock? { MutexStepKeeps(k, a); }
    else if a.Give? || a.Take? || a.Send? || a.Receive? { SafeFacts(k); CounterStepKeeps(k, a); }
    else if a.Depart? || a.GiveUp? { LateStepKeeps(k, a); }
    else { ClockStepKeeps(k, a); }
  }

  /** These steps, begun n deep, do not bring the outermost unlock. */
  predicate StaysLocked(n: nat, actions: seq<Action>)
    decreases |actions|
  {
    n > 0 && (actions == [] || StaysLocked(Nesting(n, actions[0]), actions[1..]))
  }

  /** From a lock to its outermost unlock the processor belongs to one task, over every run of interrupts, ticks,
      switches and calls, wakes of more urgent tasks included. */
  lemma {:induction false} LockedSchedulerKeepsItsTask(k: State, actions: seq<Action>)
    requires Safe(k) && IsRun(k, actions) && StaysLocked(k.lockCount, actions)
    ensures var k' := After(k, actions);
            k'.current == k.current && k'.lockCount > 0 && (k'.current == Some(IDLE) || T(k', k'.current.value).state == Running)
    decreases |actions|
  {
    hide Safe, Enabled, Apply, Nesting;
    if actions == [] {
      SafeFacts(k);
      LockedIsDeferred(k);
    } else {
      LockedStep(k, actions[0]);
      StepIsSafe(k, actions[0]);
      LockedSchedulerKeepsItsTask(Apply(k, actions[0]), actions[1..]);
    }
  }

  /** The outermost unlock opens the way again: a switch asked for meanwhile is pended, and one is whenever a ready
      task is owed the processor. An inner unlock does nothing else, and none undoes a lock never taken. */
  lemma UnlockOutcome(k: State)
    requires Safe(k)
    ensures KernelLock(k).lockCount == k.lockCount + 1 && KernelLock(k).current == k.current
    ensures k.lockCount == 1 ==>
            var k' := KernelUnlock(k); k'.lockCount == 0 && (k.switchPending ==> k'.pendSv) && (Outranked(k') ==> k'.pendSv)
    ensures k.lockCount > 1 ==> KernelUnlock(k) == k.(lockCount := k.lockCount - 1)
    ensures k.lockCount == 0 ==> KernelUnlock(k) == k
    ensures k.lockCount > 0 ==> KernelUnlock(KernelLock(k)) == k
  {
    SafeFacts(k);
    hide Safe, Protocol, Delayed, Structured, Outranked;
    KernelUnlockKeeps(k);
  }
}
