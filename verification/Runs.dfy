/** Whole runs of the kernel: any interleaving of task calls, interrupt calls, ticks and context
    switches, each one atomic step. The invariants of the earlier modules hold in every state. */
module Runs {
  import opened Sequences
  import opened Kernel
  import opened Links
  import opened Operations
  import opened Inheritance
  import opened InheritanceSteps
  import opened Scheduling
  import opened Preemption
  import opened Waking
  import opened NoLostWakeups
  import opened Timeouts
  import opened Deadlock
  import DeltaList

  /** One critical section of the kernel. `isr` marks a call from an interrupt. */
  datatype Action =
    | Create(t: Task, p: nat, system: bool) | Start(t: Task) | Pause(t: Task) | Delete(t: Task)
    | SetPriority(t: Task, p: nat) | Wake(t: Task) | SleepFor(w: Wait) | Yield
    | Lock(m: Mutex, w: Wait) | Unlock(m: Mutex)
    | Give(s: nat) | Take(s: nat, w: Wait, isr: bool)
    | Send(q: nat, w: Wait, isr: bool) | Receive(q: nat, w: Wait, isr: bool) | SetMode(q: nat, mode: QueueMode)
    | Depart | GiveUp | Tick(ticks: nat) | Switch | LockScheduler | UnlockScheduler

  function Caller0(k: State): Task { if k.current.Some? then k.current.value else IDLE }

  /** A task runs and is inside no blocking call. */
  predicate Free(k: State) {
    Caller0(k) != IDLE && Live(k, Caller0(k)) && T(k, Caller0(k)).state == Running && T(k, Caller0(k)).doing.None?
  }

  /** The running task enters the loop on q, or comes round it again with a signal. */
  predicate InLoop(k: State, q: WaitQ) {
    Caller(k, Caller0(k), q) && (T(k, Caller0(k)).doing.Some? ==> T(k, Caller0(k)).signaled)
  }

  /** A task runs again inside a blocking call, and nothing signaled it. */
  predicate TimedOutCaller(k: State) {
    Caller0(k) != IDLE && T(k, Caller0(k)).doing.Some? && !T(k, Caller0(k)).signaled && Caller(k, Caller0(k), T(k, Caller0(k)).doing.value)
  }

  /** What the conversion from milliseconds yields: at least one tick, and never the sentinel. */
  predicate Converted(w: Wait) { w.For? ==> 0 < w.ticks <= DeltaList.LONGEST_WAIT }

  predicate Enabled(k: State, a: Action) {
    match a
    case Create(t, p, system) => !Live(k, t) && t != IDLE && Proper(p) && (p == PRIO_MAX ==> system)
    case Start(t) => Live(k, t)
    case Pause(t) => Live(k, t) && Free(k)
    case Delete(t) => Live(k, t) && Free(k) && T(k, t).owned == []
    case SetPriority(t, p) => Live(k, t) && 1 <= p < PRIO_MAX
    case Wake(_) => true
    case SleepFor(w) => Free(k) && Converted(w)
    case Yield => Free(k)
    case Lock(m, w) => InLoop(k, OfMutex(m)) && Converted(w)
    case Unlock(_) => Free(k)
    case Give(_) => true
    case Take(s, w, isr) => (isr || InLoop(k, OfSem(s))) && Converted(w)
    case Send(q, w, isr) => (isr || InLoop(k, Senders(q))) && Converted(w)
    case Receive(q, w, isr) => (isr || InLoop(k, Receivers(q))) && Converted(w)
    case SetMode(_, _) => true
    case Depart => TimedOutCaller(k) && T(k, Caller0(k)).doing.value.OfMutex?
    case GiveUp => TimedOutCaller(k)
    case Tick(_) => true
    case Switch => k.pendSv
    case LockScheduler => Free(k)
    case UnlockScheduler => Free(k)
  }

  function Apply(k: State, a: Action): State {
    var c := Caller0(k);
    match a
    case Create(t, p, system) => TaskCreate(k, t, p, system)
    case Start(t) => TaskStart(k, t)
    case Pause(t) => TaskPause(k, t)
    case Delete(t) => TaskDelete(k, t)
    case SetPriority(t, p) => PrioritySet(k, t, p)
    case Wake(t) => WakeBlocked(k, t)
    case SleepFor(w) => Sleep(k, c, w)
    case Yield => SwitchRequest(k)
    case Lock(m, w) => MutexLock(k, c, m, w).0
    case Unlock(m) => MutexUnlock(k, c, m).0
    case Give(s) => SemGive(k, s).0
    case Take(s, w, isr) => SemTake(k, c, s, w, isr).0
    case Send(q, w, isr) => QueueSend(k, c, q, w, isr).0
    case Receive(q, w, isr) => QueueReceive(k, c, q, w, isr).0
    case SetMode(q, mode) => k.(queues := k.queues[q := Q(k, q).(mode := mode)])
    case Depart => WaiterDepart(k, c)
    case GiveUp => WaitTimedOut(k, c)
    case Tick(ticks) => TickUpdate(k, ticks)
    case Switch => PendSv(k)
    case LockScheduler => KernelLock(k)
    case UnlockScheduler => KernelUnlock(k)
  }

  predicate IsRun(k: State, actions: seq<Action>)
    decreases |actions|
  {
    actions == [] || (Enabled(k, actions[0]) && IsRun(Apply(k, actions[0]), actions[1..]))
  }

  function After(k: State, actions: seq<Action>): State
    decreases |actions|
  {
    if actions == [] then k else After(Apply(k, actions[0]), actions[1..])
  }

  /** The kernel at start: no tasks, idle running, objects as configured. */
  predicate Initial(k: State) {
    && k.tcb == map[] && k.waiters == map[] && k.mutexes == map[] && k.ready == map[] && k.bitmap == {}
    && k.delay == [] && k.current == Some(IDLE) && !k.pendSv && k.lockCount == 0 && !k.switchPending
  }

  /** The safety invariant: no lost wakeup, no missed preemption, exact lists. */
  ghost predicate Safe(k: State) { Protocol(k) && Scheduled(k) && Delayed(k) }

  lemma InitialIsSafe(k: State)
    requires Initial(k)
    ensures Safe(k) && Settled(k) && NoForeverCycle(k)
  {
    assert forall t :: T(k, t) == CLEARED;
    assert forall q :: WaitersOf(k, q) == [];
    assert Linked(k) by {
      assert forall m :: M(k, m) == MutexObj(false, 0);
    }
    assert Protocol(k) by { assert forall q :: NoLostAt(k, q, 0); }
    assert Scheduled(k) by { assert forall p :: Bucket(k, p) == []; }
    forall t: Task, j: nat | 1 <= j <= MAX_DEPTH ensures Hop(k, t, j) != Some(t) { assert Next(k, t).None?; }
  }

  // ---------- ticks ----------

  /** The sleepers a tick releases leave one by one, each release a step of its own. */
  lemma {:induction false} ExpireAllSafe(k: State, due: seq<Task>)
    requires Protocol(k) && Scheduled(k) && DelayedBut(k, multiset(due))
    ensures Safe(ExpireAll(k, due))
    decreases |due|
  {
    hide Protocol, Scheduled, DelayedBut;
    if due == [] {
      assert multiset(due) == multiset{};
    } else {
      var t := due[0];
      DueSleeps(k, due);
      ProtocolLinks(k);
      ExpireProtocol(k, t);
      ExpireKeeps(k, t);
      ExpireDelayed(k, t, multiset(due));
      ExpireAllSafe(ExpireWait(k, t), due[1..]);
    }
  }

  lemma ProtocolLinks(k: State)
    requires Protocol(k)
    ensures Linked(k)
  {
  }

  lemma TickSafe(k: State, ticks: nat)
    requires Safe(k)
    ensures Safe(TickUpdate(k, ticks))
  {
    if ticks != 0 {
      var k1 := k.(delay := DeltaList.Remaining(k.delay, ticks));
      hide Protocol, Structured, NoMissed, DelayedBut;
      TickTakes(k, ticks);
      SameProtocol(k, k1);
      OtherListsKeep(k, k1, {});
      ExpireAllSafe(k1, DeltaList.Expired(k.delay, ticks));
    }
  }

  // ---------- one step ----------

  lemma CountersSafe(k: State, k': State)
    requires Scheduled(k) && Delayed(k) && OnlyCounters(k, k')
    ensures Scheduled(k') && Delayed(k')
  {
    hide Structured, NoMissed, DelayedBut;
    OtherListsKeep(k, k', {});
    SameDelayed(k, k');
  }

  /** Blocking on anything but a mutex keeps schedule and delays. */
  lemma PlainWaitSafe(k: State, c: Task, q: WaitQ, w: Wait)
    requires Safe(k) && Caller(k, c, q) && !q.OfMutex? && k.lockCount == 0 && Avail(k, q) == 0
    ensures Scheduled(WaitBegin(k, c, q, w)) && Delayed(WaitBegin(k, c, q, w))
  {
    BecomesItself(k, c);
    hide Protocol, Scheduled, DelayedBut, WaitBegin, Avail, Becomes;
    PlainWaitStep(k, c, q, w);
    WaitBeginKeeps(k, c, q, w);
    WaitBeginDelayed(k, k, c, q, w);
  }

  lemma EndSafe(k: State, isr: bool)
    requires Scheduled(k) && Delayed(k)
    ensures Scheduled(WaitEnd(k, isr)) && Delayed(WaitEnd(k, isr))
  {
    hide Scheduled, DelayedBut, WaitEnd;
    WaitEndKeeps(k, isr);
    WaitEndDelayed(k, isr);
  }

  lemma WakeSafe(k: State, q: WaitQ)
    requires Linked(k) && Scheduled(k) && Delayed(k)
    ensures Scheduled(WakeOne(k, q)) && Delayed(WakeOne(k, q))
  {
    hide Scheduled, DelayedBut, WakeOne;
    WakeOneKeeps(k, q);
    WakeOneDelayed(k, q);
  }

  lemma SemGiveSafe(k: State, s: nat)
    requires Safe(k)
    ensures Safe(SemGive(k, s).0)
  {
    hide Protocol, Scheduled, DelayedBut, WakeOne;
    ProtocolLinks(k);
    SemGiveProtocol(k, s);
    var k1 := k.(sems := k.sems[s := S(k, s).(count := S(k, s).count + 1)]);
    CountersSafe(k, k1);
    OnlyCountersLinked(k, k1);
    WakeSafe(k1, OfSem(s));
  }

  lemma SemTakeSafe(k: State, c: Task, s: nat, w: Wait, isr: bool)
    requires Safe(k) && (!isr ==> Caller(k, c, OfSem(s)))
    ensures Safe(SemTake(k, c, s, w, isr).0)
  {
    hide Protocol, Scheduled, DelayedBut, WaitEnd, WaitBegin;
    SemTakeProtocol(k, c, s, w, isr);
    if S(k, s).count > 0 {
      var k1 := k.(sems := k.sems[s := S(k, s).(count := S(k, s).count - 1)]);
      CountersSafe(k, k1);
      EndSafe(k1, isr);
    } else if w.Nothing? || !CanBlock(k, isr) || w.Spent? {
      EndSafe(k, isr);
    } else {
      PlainWaitSafe(k, c, OfSem(s), w);
    }
  }

  lemma QueueSendSafe(k: State, c: Task, q: nat, w: Wait, isr: bool)
    requires Safe(k) && (!isr ==> Caller(k, c, Senders(q)))
    ensures Safe(QueueSend(k, c, q, w, isr).0)
  {
    hide Protocol, Scheduled, DelayedBut, WaitEnd, WaitBegin, WakeOne;
    QueueSendProtocol(k, c, q, w, isr);
    ProtocolLinks(k);
    var o := Q(k, q);
    if o.count < o.capacity {
      var k1 := k.(queues := k.queues[q := o.(count := o.count + 1)]);
      CountersSafe(k, k1);
      OnlyCountersLinked(k, k1);
      WakeSafe(k1, Receivers(q));
      EndSafe(WakeOne(k1, Receivers(q)), isr);
    } else if o.mode == Overwrite && o.capacity != 0 && (w.Nothing? || !CanBlock(k, isr) || w.Spent?) {
      WakeSafe(k, Receivers(q));
      EndSafe(WakeOne(k, Receivers(q)), isr);
    } else if w.Nothing? || !CanBlock(k, isr) || w.Spent? {
      EndSafe(k, isr);
    } else {
      PlainWaitSafe(k, c, Senders(q), w);
    }
  }

  lemma QueueReceiveSafe(k: State, c: Task, q: nat, w: Wait, isr: bool)
    requires Safe(k) && (!isr ==> Caller(k, c, Receivers(q)))
    ensures Safe(QueueReceive(k, c, q, w, isr).0)
  {
    hide Protocol, Scheduled, DelayedBut, WaitEnd, WaitBegin, WakeOne;
    QueueReceiveProtocol(k, c, q, w, isr);
    ProtocolLinks(k);
    var o := Q(k, q);
    if o.count > 0 {
      var k1 := k.(queues := k.queues[q := o.(count := o.count - 1)]);
      CountersSafe(k, k1);
      OnlyCountersLinked(k, k1);
      WakeSafe(k1, Senders(q));
      EndSafe(WakeOne(k1, Senders(q)), isr);
    } else if w.Nothing? || !CanBlock(k, isr) || w.Spent? {
      EndSafe(k, isr);
    } else {
      PlainWaitSafe(k, c, Receivers(q), w);
    }
  }

  /** A queue's mode decides what a full send does, not whether it is full. */
  lemma SetModeSafe(k: State, q: nat, mode: QueueMode)
    requires Safe(k)
    ensures Safe(k.(queues := k.queues[q := Q(k, q).(mode := mode)]))
  {
    var k1 := k.(queues := k.queues[q := Q(k, q).(mode := mode)]);
    assert forall x :: Avail(k1, x) == Avail(k, x);
    hide Protocol, Scheduled, DelayedBut, Avail;
    CountersSafe(k, k1);
    CountersStep(k, k1, Senders(q), 0);
    ZeroAllowance(k1, Senders(q));
    ProtocolIs(k1);
  }

  lemma ProtocolIs(k: State)
    requires Linked(k) && WakesOk(k) && NoLost(k)
    ensures Protocol(k)
  {
  }

  lemma DepartSafeHere(k: State, c: Task)
    requires Linked(k) && Live(k, c) && T(k, c).waitList.None? && Scheduled(k) && Delayed(k)
    ensures Scheduled(WaiterDepart(k, c)) && Delayed(WaiterDepart(k, c))
  {
    hide Scheduled, DelayedBut, WaiterDepart;
    DepartKeeps(k, c);
    DepartDelayed(k, c);
  }

  lemma LockPendingKeeps(k: State, c: Task, m: Mutex, w: Wait)
    requires Protocol(k) && Scheduled(k) && Caller(k, c, OfMutex(m)) && M(k, m).locked && M(k, m).owner != c
    ensures var k2 := LockPending(k, c, m, w);
            && Scheduled(k2) && Live(k2, c) && k2.current == Some(c) && T(k2, c).state == Running && k2.lockCount == k.lockCount
  {
    CallerFacts(k, c, OfMutex(m));
    ProtocolLinks(k);
    BoostFrame(k, c, m);
    hide Protocol, Scheduled, PriorityInherit, Becomes;
    var r := T(k, c).(doing := Some(OfMutex(m)));
    SetTcbScheduled(k, c, r);
    var k1 := PriorityInherit(SetTcb(k, c, r), c, M(k, m).owner);
    InheritKeeps(SetTcb(k, c, r), c, M(k, m).owner);
    BecomesAt(k, k1, c, r.(piOwner := M(k, m).owner));
    SetTcbScheduled(k1, c, T(k1, c).(blockedOn := Some(m), blockedForever := w.Forever?));
  }

  lemma MutexLockSafely(k: State, c: Task, m: Mutex, w: Wait)
    requires Safe(k) && Caller(k, c, OfMutex(m))
    ensures Safe(MutexLock(k, c, m, w).0)
  {
    CallerFacts(k, c, OfMutex(m));
    hide Protocol, Scheduled, DelayedBut, WaitEnd, WaitBegin, OwnerLink, WaiterDepart, PriorityInherit;
    MutexLockProtocol(k, c, m, w);
    ProtocolLinks(k);
    if !M(k, m).locked {
      var k0 := WithMutex(k, m, MutexObj(true, c));
      OtherListsKeep(k, k0, {});
      AlikeScheduled(k, k0);
      OwnerLinkKeeps(k0, c, m);
      AcquireDelayed(k, c, m);
      EndSafe(OwnerLink(k0, c, m), false);
    } else if M(k, m).owner == c || w.Nothing? || !CanBlock(k, false) || w.Spent? {
      DepartSafeHere(k, c);
      EndSafe(WaiterDepart(k, c), false);
    } else {
      LockPendingKeeps(k, c, m, w);
      LockWaitDelayed(k, c, m, w);
      WaitBeginKeeps(LockPending(k, c, m, w), c, OfMutex(m), w);
    }
  }

  lemma AlikeScheduled(k: State, k': State)
    requires Scheduled(k) && AlikeToScheduler(k, k')
    ensures Scheduled(k')
  {
    hide AlikeToScheduler, Structured, NoMissed;
    AlikeKeeps(k, k', {});
  }

  lemma MutexUnlockSafely(k: State, c: Task, m: Mutex)
    requires Safe(k) && Live(k, c) && c != IDLE
    ensures Safe(MutexUnlock(k, c, m).0)
  {
    hide Protocol, Scheduled, DelayedBut, WakeOne, OwnerUnlink, Becomes, OnlyPriorities, Unowned;
    MutexUnlockProtocol(k, c, m);
    ProtocolLinks(k);
    LockedOwned(k, m);
    if M(k, m).locked && M(k, m).owner == c {
      var k0 := WithMutex(k, m, MutexObj(false, 0));
      OtherListsKeep(k, k0, {});
      AlikeScheduled(k, k0);
      OwnerUnlinkKeeps(k0, c, m);
      ReleaseDelayed(k, c, m);
      OwnerUnlinkFrame(k, c, m);
      WakeSafe(OwnerUnlink(k0, c, m), OfMutex(m));
    }
  }

  lemma DepartIsSafe(k: State, c: Task, q: WaitQ)
    requires Safe(k) && Caller(k, c, q)
    ensures Safe(WaiterDepart(k, c))
  {
    CallerFacts(k, c, q);
    hide Protocol, Scheduled, DelayedBut, WaiterDepart;
    ProtocolLinks(k);
    DepartProtocol(k, c);
    DepartSafeHere(k, c);
  }

  lemma NothingOwed(k: State, c: Task)
    requires Live(k, c) && T(k, c).piOwner == 0 && T(k, c).blockedOn.None? && !T(k, c).blockedForever
    ensures WaiterDepart(k, c) == k && WaitTimedOut(k, c) == WaitEnd(k, false)
  {
    assert k.tcb[c := k.tcb[c]] == k.tcb;
    assert WaiterDepart(k, c) == SetTcb(k, c, T(k, c));
  }

  /** A timed-out mutex wait settles its debt in one critical section and closes in the next, which finds
      nothing left to settle. */
  lemma DepartSettlesAll(k: State, c: Task)
    requires Linked(k) && Live(k, c) && T(k, c).waitList.None?
    ensures var k1 := WaiterDepart(k, c); WaiterDepart(k1, c) == k1 && WaitTimedOut(k1, c) == WaitEnd(k1, false)
  {
    hide Linked, WaiterDepart, Becomes, WaitTimedOut, WaitEnd;
    WaiterDepartFrame(k, c);
    BecomesAt(k, WaiterDepart(k, c), c, Released(T(k, c)));
    NothingOwed(WaiterDepart(k, c), c);
  }

  lemma GiveUpSafe(k: State, c: Task, q: WaitQ)
    requires Safe(k) && Caller(k, c, q) && !T(k, c).signaled
    ensures Safe(WaitTimedOut(k, c))
  {
    CallerFacts(k, c, q);
    hide Protocol, Scheduled, DelayedBut, WaitEnd, WaiterDepart;
    TimedOutProtocol(k, c, q);
    ProtocolLinks(k);
    DepartSafeHere(k, c);
    EndSafe(if T(k, c).doing.Some? && T(k, c).doing.value.OfMutex? then WaiterDepart(k, c) else k, false);
  }

  lemma LockCountSafe(k: State)
    requires Safe(k) && Free(k)
    ensures Safe(KernelLock(k)) && Safe(KernelUnlock(k))
  {
    KernelLockKeeps(k);
    KernelUnlockKeeps(k);
    UnlockIs(k);
    hide Protocol, Scheduled, DelayedBut, KernelUnlock;
    SameProtocol(k, KernelLock(k));
    SameProtocol(k, KernelUnlock(k));
    SameDelayed(k, KernelLock(k));
    SameDelayed(k, KernelUnlock(k));
  }

  lemma SwitchSafe(k: State)
    requires Safe(k)
    ensures Safe(PendSv(k))
  {
    hide Protocol, Scheduled, DelayedBut, PendSv, OnlyDispatch;
    PendSvKeeps(k);
    DispatchProtocol(k, PendSv(k));
    DispatchDelayed(k, PendSv(k));
  }

  lemma RequestSafely(k: State)
    requires Safe(k)
    ensures Safe(SwitchRequest(k))
  {
    ScheduledMeans(k);
    hide Protocol, Structured, NoMissed, DelayedBut, SwitchRequest;
    RequestProtocol(k);
    RequestKeeps(k, {});
    RequestDelayed(k);
  }

  /** Only the current task runs, so a running task named by a call is the caller. */
  lemma RunnerIsFree(k: State, t: Task)
    requires Scheduled(k) && Free(k) && T(k, t).state == Running
    ensures T(k, t).doing.None?
  {
  }

  lemma TaskCallSafe(k: State, a: Action)
    requires Safe(k) && Enabled(k, a)
    requires a.Create? || a.Start? || a.Pause? || a.Delete? || a.SetPriority? || a.Wake?
    ensures Safe(Apply(k, a))
  {
    if (a.Pause? || a.Delete?) && T(k, a.t).state == Running { RunnerIsFree(k, a.t); }
    hide Protocol, Scheduled, DelayedBut, TaskCreate, TaskStart, TaskPause, TaskDelete, PrioritySet, WakeBlocked;
    ProtocolLinks(k);
    match a
    case Create(t, p, system) => CreateProtocol(k, t, p, system); TaskCreateKeeps(k, t, p, system); CreateDelayed(k, t, p, system);
    case Start(t) => StartProtocol(k, t); TaskStartKeeps(k, t); StartDelayed(k, t);
    case Pause(t) => PauseProtocol(k, t); TaskPauseKeeps(k, t); PauseDelayed(k, t);
    case Delete(t) => DeleteProtocol(k, t); TaskDeleteKeeps(k, t); DeleteDelayed(k, t);
    case SetPriority(t, p) => PrioritySetProtocol(k, t, p); PrioritySetKeeps(k, t, p); PrioritySetDelayed(k, t, p);
    case Wake(t) => WakeBlockedProtocol(k, t); WakeBlockedKeeps(k, t); WakeBlockedDelayed(k, t);
  }

  lemma SleepSafe(k: State, w: Wait)
    requires Safe(k) && Free(k)
    ensures Safe(Sleep(k, Caller0(k), w))
  {
    var c := Caller0(k);
    EdgesHold(k, c);
    hide Protocol, Scheduled, DelayedBut, Sleep;
    ProtocolLinks(k);
    SleepProtocol(k, c, w);
    SleepKeeps(k, c, w);
    SleepDelayed(k, c, w);
  }

  /** Every step of the kernel keeps every safety invariant. */
  lemma StepIsSafe(k: State, a: Action)
    requires Safe(k) && Enabled(k, a)
    ensures Safe(Apply(k, a))
  {
    hide Safe;
    var c := Caller0(k);
    match a
    case SleepFor(w) => SleepSafe(k, w);
    case Yield => RequestSafely(k);
    case Lock(m, w) => MutexLockSafely(k, c, m, w);
    case Unlock(m) => MutexUnlockSafely(k, c, m);
    case Give(s) => SemGiveSafe(k, s);
    case Take(s, w, isr) => SemTakeSafe(k, c, s, w, isr);
    case Send(q, w, isr) => QueueSendSafe(k, c, q, w, isr);
    case Receive(q, w, isr) => QueueReceiveSafe(k, c, q, w, isr);
    case SetMode(q, mode) => SetModeSafe(k, q, mode);
    case Depart => DepartIsSafe(k, c, T(k, c).doing.value);
    case GiveUp => GiveUpSafe(k, c, T(k, c).doing.value);
    case Tick(ticks) => TickSafe(k, ticks);
    case Switch => SwitchSafe(k);
    case LockScheduler => LockCountSafe(k);
    case UnlockScheduler => LockCountSafe(k);
    case _ => TaskCallSafe(k, a);
  }

  /** Safety over whole runs: in every reachable state no wakeup is lost, no preemption is missed, and
      ready lists, bitmap, waiter lists, owner lists and delay list are exact. */
  lemma {:induction false} EveryReachableStateIsSafe(k: State, actions: seq<Action>)
    requires Safe(k) && IsRun(k, actions)
    ensures Safe(After(k, actions))
    decreases |actions|
  {
    hide Safe, Enabled, Apply;
    if actions != [] {
      StepIsSafe(k, actions[0]);
      EveryReachableStateIsSafe(Apply(k, actions[0]), actions[1..]);
    }
  }
}
