/** What the blocking objects promise their users, over whole runs: a mutex has one holder at a time, only
    the holder lets go, and tokens and items are neither made nor lost. */
module Ledgers {
  import opened Sequences
  import opened Kernel
  import opened Links
  import opened Operations
  import opened Scheduling
  import opened Preemption
  import opened Waking
  import opened NoLostWakeups
  import opened Timeouts
  import opened Runs
  import DeltaList

  // ---------- what each critical section does to the objects ----------

  lemma SameTwice(k: State, k1: State, k2: State)
    requires SameObjects(k, k1) && SameObjects(k1, k2)
    ensures SameObjects(k, k2)
  {
  }

  lemma WakeOneObjects(k: State, q: WaitQ)
    requires Linked(k)
    ensures SameObjects(k, WakeOne(k, q))
  {
    hide Linked, WakeOne, Becomes;
    WakeOneFrame(k, q);
    if WaitersOf(k, q) != [] { BecomesSameObjects(k, WakeOne(k, q), WaitersOf(k, q)[0], Signaled(T(k, WaitersOf(k, q)[0]), q)); }
  }

  lemma UnlinkObjects(k: State, t: Task)
    requires Linked(k) && Live(k, t)
    ensures SameObjects(k, Unlink(k, t))
  {
    hide Linked, Unlink, Becomes;
    UnlinkFrame(k, t);
    BecomesSameObjects(k, Unlink(k, t), t, Left(T(k, t)));
  }

  lemma ExpireObjects(k: State, t: Task)
    requires Linked(k) && Live(k, t)
    ensures SameObjects(k, ExpireWait(k, t))
  {
    hide Linked, ExpireWait, Becomes;
    ExpireWaitFrame(k, t);
    BecomesSameObjects(k, ExpireWait(k, t), t, Left(T(k, t)).(state := Ready));
  }

  lemma {:induction false} ExpireAllObjects(k: State, due: seq<Task>)
    requires Protocol(k) && DelayedBut(k, multiset(due))
    ensures SameObjects(k, ExpireAll(k, due))
    decreases |due|
  {
    hide Protocol, DelayedBut, SameObjects;
    if due == [] {
      assert SameObjects(k, k) by { ReflObjects(k); }
    } else {
      var t := due[0];
      DueSleeps(k, due);
      ProtocolLinks(k);
      ExpireProtocol(k, t);
      ExpireDelayed(k, t, multiset(due));
      ExpireObjects(k, t);
      ExpireAllObjects(ExpireWait(k, t), due[1..]);
      SameTwice(k, ExpireWait(k, t), ExpireAll(k, due));
    }
  }

  lemma ReflObjects(k: State)
    ensures SameObjects(k, k)
  {
  }

  lemma TickObjects(k: State, ticks: nat)
    requires Safe(k)
    ensures SameObjects(k, TickUpdate(k, ticks))
  {
    if ticks != 0 {
      var k1 := k.(delay := DeltaList.Remaining(k.delay, ticks));
      hide Protocol, Scheduled, DelayedBut;
      TickTakes(k, ticks);
      SameProtocol(k, k1);
      ExpireAllObjects(k1, DeltaList.Expired(k.delay, ticks));
    }
  }

  lemma CompensateObjects(k: State, t: Task)
    requires Linked(k) && Live(k, t)
    ensures SameObjects(k, WakeCompensate(k, t))
  {
    hide Linked, WakeOne;
    if T(k, t).state == Ready && T(k, t).signaled && T(k, t).wokenFrom.Some? {
      SpendFrame(k, t);
      WakeOneObjects(Spend(k, t), T(k, t).wokenFrom.value);
    }
  }

  lemma ParkObjects(k: State, t: Task)
    requires Linked(k) && Live(k, t)
    ensures SameObjects(k, Park(k, t))
  {
    hide Linked, Becomes, Park;
    ParkFrame(k, t);
    BecomesSameObjects(k, Park(k, t), t, Left(T(k, t)).(signaled := T(k, t).signaled || T(k, t).state == Blocked, state := Suspended));
  }

  lemma PauseObjects(k: State, t: Task)
    requires Linked(k) && Live(k, t)
    ensures SameObjects(k, TaskPause(k, t))
  {
    hide *;
    PauseInSteps(k, t);
    ReflObjects(k);
    if !Refused(k, t) {
      var k1 := WakeCompensate(k, t);
      CompensateFrame(k, t);
      CompensateObjects(k, t);
      ParkObjects(k1, t);
      RequestObjects(Park(k1, t));
      SameTwice(k, k1, Park(k1, t));
      SameTwice(k, Park(k1, t), SwitchRequest(Park(k1, t)));
    }
  }

  lemma DeleteObjects(k: State, t: Task)
    requires Linked(k) && Live(k, t) && T(k, t).owned == []
    ensures SameObjects(k, TaskDelete(k, t))
  {
    hide Linked, Unlink, WakeCompensate;
    DeleteInSteps(k, t);
    if !Refused(k, t) {
      CompensateFrame(k, t);
      CompensateObjects(k, t);
      UnlinkObjects(WakeCompensate(k, t), t);
    }
  }

  lemma TaskCallObjects(k: State, a: Action)
    requires Linked(k) && Enabled(k, a)
    requires a.Create? || a.Start? || a.Pause? || a.Delete? || a.SetPriority? || a.Wake?
    ensures SameObjects(k, Apply(k, a))
  {
    hide Linked, Becomes, TaskStart, TaskPause, TaskDelete, PriorityRecompute, WakeBlocked;
    match a
    case Create(t, p, system) =>
    case Start(t) =>
      TaskStartFrame(k, t);
      BecomesSameObjects(k, TaskStart(k, t), t, Started(Left(T(k, t)), T(k, t).state == Blocked, k.current == Some(t)));
    case Pause(t) => PauseObjects(k, t);
    case Delete(t) => DeleteObjects(k, t);
    case SetPriority(t, p) =>
      PrioritySetTaskFrame(k, t, p);
      if !T(k, t).system { BecomesSameObjects(k, PrioritySet(k, t, p), t, T(k, t).(base := p)); }
    case Wake(t) => ForcedObjects(k, t);
  }

  lemma ForcedObjects(k: State, t: Task)
    requires Linked(k)
    ensures SameObjects(k, WakeBlocked(k, t))
  {
    if Live(k, t) && T(k, t).state == Blocked {
      hide Linked, Becomes, WakeBlocked;
      WakeBlockedFrame(k, t);
      BecomesSameObjects(k, WakeBlocked(k, t), t, Left(T(k, t)).(signaled := true, state := Ready));
    }
  }

  lemma DepartObjects(k: State, c: Task)
    requires Linked(k) && Live(k, c) && T(k, c).waitList.None?
    ensures SameObjects(k, WaiterDepart(k, c)) && SameObjects(k, WaitEnd(WaiterDepart(k, c), false))
  {
    hide Linked, Becomes, WaiterDepart;
    WaiterDepartFrame(k, c);
    BecomesSameObjects(k, WaiterDepart(k, c), c, Released(T(k, c)));
  }

  lemma EndObjects(k: State, isr: bool)
    ensures SameObjects(k, WaitEnd(k, isr))
  {
  }

  lemma BeginObjects(k: State, c: Task, q: WaitQ, w: Wait)
    ensures SameObjects(k, WaitBegin(k, c, q, w))
  {
    hide Ranked, T, DeltaList.Insert, WaitersOf;
  }

  lemma RequestObjects(k: State)
    ensures SameObjects(k, SwitchRequest(k))
  {
  }

  lemma SleepObjects(k: State, c: Task, w: Wait)
    ensures SameObjects(k, Sleep(k, c, w))
  {
    hide T, DeltaList.Insert;
  }

  lemma GiveUpObjects(k: State, c: Task, q: WaitQ)
    requires Protocol(k) && Caller(k, c, q)
    ensures SameObjects(k, WaiterDepart(k, c)) && SameObjects(k, WaitTimedOut(k, c))
  {
    CallerFacts(k, c, q);
    ProtocolLinks(k);
    hide Protocol, Linked, WaitEnd, WaiterDepart;
    DepartObjects(k, c);
    EndObjects(k, false);
  }

  lemma SwitchObjects(k: State)
    requires Safe(k)
    ensures SameObjects(k, PendSv(k))
  {
    hide Scheduled, PendSv;
    PendSvKeeps(k);
  }

  lemma LockedObjects(k: State)
    ensures SameObjects(k, KernelLock(k))
  {
  }

  lemma UnlockedObjects(k: State)
    ensures SameObjects(k, KernelUnlock(k))
  {
    UnlockIs(k);
    hide KernelUnlock;
  }

  lemma FlagStepObjects(k: State, a: Action)
    requires a.Yield? || a.LockScheduler? || a.UnlockScheduler?
    ensures SameObjects(k, Apply(k, a))
  {
    hide SwitchRequest, KernelLock, KernelUnlock, SameObjects;
    RequestObjects(k);
    LockedObjects(k);
    UnlockedObjects(k);
  }

  /** The steps of the switch, the tick and the running task alone. */
  lemma LocalObjects(k: State, a: Action)
    requires Safe(k) && (a.SleepFor? || a.Yield? || a.Tick? || a.Switch? || a.LockScheduler? || a.UnlockScheduler?)
    ensures SameObjects(k, Apply(k, a))
  {
    hide Safe, PendSv, TickUpdate, Sleep, SameObjects;
    match a
    case Tick(ticks) => TickObjects(k, ticks);
    case Switch => SwitchObjects(k);
    case SleepFor(w) => SleepObjects(k, Caller0(k), w);
    case _ => hide Apply; FlagStepObjects(k, a);
  }

  /** The steps that are no call on an object leave every object as it is. */
  predicate OnObject(a: Action) { a.Lock? || a.Unlock? || a.Give? || a.Take? || a.Send? || a.Receive? || a.SetMode? }

  lemma EndStepObjects(k: State, a: Action)
    requires Safe(k) && Enabled(k, a) && (a.Depart? || a.GiveUp?)
    ensures SameObjects(k, Apply(k, a))
  {
    hide Protocol, Scheduled, DelayedBut, WaitTimedOut, WaiterDepart;
    GiveUpObjects(k, Caller0(k), T(k, Caller0(k)).doing.value);
  }

  lemma OtherStepsKeepObjects(k: State, a: Action)
    requires Safe(k) && Enabled(k, a) && !OnObject(a)
    ensures SameObjects(k, Apply(k, a))
  {
    assert Protocol(k);
    ProtocolLinks(k);
    assert !OnObject(a);
    hide Safe, Enabled, Apply, Protocol, SameObjects, Linked;
    if a.Create? || a.Start? || a.Pause? || a.Delete? || a.SetPriority? || a.Wake? { TaskCallObjects(k, a); }
    else if a.Depart? || a.GiveUp? { EndStepObjects(k, a); }
    else { LocalObjects(k, a); }
  }

  // ---------- the calls on objects ----------

  predicate Acquires(k: State, a: Action, m: Mutex) { a.Lock? && a.m == m && MutexLock(k, Caller0(k), m, a.w).1 == Ok }
  predicate Releases(k: State, a: Action, m: Mutex) { a.Unlock? && a.m == m && MutexUnlock(k, Caller0(k), m).1 == Ok }

  lemma LockObjects(k: State, c: Task, m: Mutex, w: Wait)
    requires Protocol(k) && Caller(k, c, OfMutex(m))
    ensures var (k', status) := MutexLock(k, c, m, w);
            && (status == Ok <==> !M(k, m).locked)
            && SameObjects(if status == Ok then WithMutex(k, m, MutexObj(true, c)) else k, k')
  {
    CallerFacts(k, c, OfMutex(m));
    ProtocolLinks(k);
    hide Protocol, Linked, Becomes, WaitEnd, WaitBegin, OwnerLink, WaiterDepart, PriorityInherit, OnlyPriorities, SameObjects;
    var k0 := WithMutex(k, m, MutexObj(true, c));
    if !M(k, m).locked {
      OwnerLinkFrame(k, c, m);
      BecomesSameObjects(k0, OwnerLink(k0, c, m), c, T(k, c).(owned := T(k, c).owned + [m]));
      EndObjects(OwnerLink(k0, c, m), false);
      SameTwice(k0, OwnerLink(k0, c, m), WaitEnd(OwnerLink(k0, c, m), false));
    } else if M(k, m).owner == c || w.Nothing? || !CanBlock(k, false) || w.Spent? {
      DepartObjects(k, c);
    } else {
      LockWaitFrame(k, c, m, w);
      var k2 := LockPending(k, c, m, w);
      BecomesSameObjects(k, k2, c, T(k2, c));
      BeginObjects(k2, c, OfMutex(m), w);
      SameTwice(k, k2, WaitBegin(k2, c, OfMutex(m), w));
    }
  }

  lemma UnlockObjects(k: State, c: Task, m: Mutex)
    requires Linked(k) && Live(k, c) && c != IDLE
    ensures var (k', status) := MutexUnlock(k, c, m);
            && (status == Ok <==> M(k, m).locked && M(k, m).owner == c)
            && SameObjects(if status == Ok then WithMutex(k, m, MutexObj(false, 0)) else k, k')
  {
    LockedOwned(k, m);
    hide Linked, Becomes, WakeOne, OwnerUnlink, OnlyPriorities, Without, SameObjects;
    var k0 := WithMutex(k, m, MutexObj(false, 0));
    ReflObjects(k);
    if M(k, m).locked && M(k, m).owner == c {
      OwnerUnlinkFrame(k, c, m);
      BecomesSameObjects(k0, OwnerUnlink(k0, c, m), c, T(k, c).(owned := Without(T(k, c).owned, m)));
      WakeOneObjects(OwnerUnlink(k0, c, m), OfMutex(m));
      SameTwice(k0, OwnerUnlink(k0, c, m), WakeOne(OwnerUnlink(k0, c, m), OfMutex(m)));
    }
  }

  function WithSem(k: State, s: nat, n: nat): State { k.(sems := k.sems[s := S(k, s).(count := n)]) }
  function WithQueue(k: State, q: nat, n: nat): State { k.(queues := k.queues[q := Q(k, q).(count := n)]) }

  lemma GiveObjects(k: State, s: nat)
    requires Linked(k)
    ensures var (k', status) := SemGive(k, s);
            && (status == Ok <==> S(k, s).count < S(k, s).max)
            && SameObjects(if status == Ok then WithSem(k, s, S(k, s).count + 1) else k, k')
  {
    var k1 := WithSem(k, s, S(k, s).count + 1);
    OnlyCountersLinked(k, k1);
    ReflObjects(k);
    hide Linked, WakeOne, SameObjects;
    WakeOneObjects(k1, OfSem(s));
  }

  lemma TakeObjects(k: State, c: Task, s: nat, w: Wait, isr: bool)
    ensures var (k', status) := SemTake(k, c, s, w, isr);
            && (status == Ok <==> S(k, s).count > 0)
            && SameObjects(if status == Ok then WithSem(k, s, S(k, s).count - 1) else k, k')
  {
    hide WaitEnd, WaitBegin, SameObjects;
    if S(k, s).count > 0 { EndObjects(WithSem(k, s, S(k, s).count - 1), isr); }
    EndObjects(k, isr);
    BeginObjects(k, c, OfSem(s), w);
  }

  /** A count changes, the other side is woken, the call ends. */
  lemma MoveObjects(k: State, k1: State, x: WaitQ, isr: bool)
    requires Linked(k) && OnlyCounters(k, k1)
    ensures SameObjects(k1, WaitEnd(WakeOne(k1, x), isr))
  {
    OnlyCountersLinked(k, k1);
    hide Linked, WakeOne, WaitEnd;
    WakeOneObjects(k1, x);
    EndObjects(WakeOne(k1, x), isr);
  }

  lemma SendObjects(k: State, c: Task, q: nat, w: Wait, isr: bool)
    requires Linked(k)
    ensures var (k', status) := QueueSend(k, c, q, w, isr); var room := Q(k, q).count < Q(k, q).capacity;
            && (room ==> status == Ok)
            && SameObjects(if room then WithQueue(k, q, Q(k, q).count + 1) else k, k')
  {
    hide Linked, WakeOne, WaitEnd, WaitBegin;
    MoveObjects(k, WithQueue(k, q, Q(k, q).count + 1), Receivers(q), isr);
    MoveObjects(k, k, Receivers(q), isr);
    EndObjects(k, isr);
    BeginObjects(k, c, Senders(q), w);
  }

  lemma ReceiveObjects(k: State, c: Task, q: nat, w: Wait, isr: bool)
    requires Linked(k)
    ensures var (k', status) := QueueReceive(k, c, q, w, isr);
            && (status == Ok <==> Q(k, q).count > 0)
            && SameObjects(if status == Ok then WithQueue(k, q, Q(k, q).count - 1) else k, k')
  {
    hide Linked, WakeOne, WaitEnd, WaitBegin;
    if Q(k, q).count > 0 { MoveObjects(k, WithQueue(k, q, Q(k, q).count - 1), Senders(q), isr); }
    EndObjects(k, isr);
    BeginObjects(k, c, Receivers(q), w);
  }

  // ---------- mutual exclusion ----------

  /** What a step does to mutex m. */
  function MutexAfter(k: State, a: Action, m: Mutex): MutexObj {
    if Acquires(k, a, m) then MutexObj(true, Caller0(k)) else if Releases(k, a, m) then MutexObj(false, 0) else M(k, m)
  }

  lemma LockStepMutex(k: State, n: Mutex, w: Wait, m: Mutex)
    requires Safe(k) && Enabled(k, Lock(n, w))
    ensures M(Apply(k, Lock(n, w)), m) == MutexAfter(k, Lock(n, w), m) && (Acquires(k, Lock(n, w), m) ==> !M(k, m).locked)
  {
    assert Protocol(k) && Caller(k, Caller0(k), OfMutex(n));
    hide Protocol, Scheduled, DelayedBut, MutexLock, Caller;
    LockObjects(k, Caller0(k), n, w);
  }

  lemma UnlockStepMutex(k: State, n: Mutex, m: Mutex)
    requires Safe(k) && Enabled(k, Unlock(n))
    ensures M(Apply(k, Unlock(n)), m) == MutexAfter(k, Unlock(n), m)
    ensures Releases(k, Unlock(n), m) ==> M(k, m) == MutexObj(true, Caller0(k))
  {
    ProtocolLinks(k);
    assert Live(k, Caller0(k)) && Caller0(k) != IDLE;
    hide Protocol, Scheduled, DelayedBut, MutexUnlock, Linked;
    UnlockObjects(k, Caller0(k), n);
  }

  lemma CounterStepMutex(k: State, a: Action, m: Mutex)
    requires Linked(k) && (a.Give? || a.Take? || a.Send? || a.Receive? || a.SetMode?)
    ensures M(Apply(k, a), m) == M(k, m)
  {
    var c := Caller0(k);
    hide Linked, SemGive, SemTake, QueueSend, QueueReceive;
    match a
    case Give(s) => GiveObjects(k, s);
    case Take(s, w, isr) => TakeObjects(k, c, s, w, isr);
    case Send(q, w, isr) => SendObjects(k, c, q, w, isr);
    case Receive(q, w, isr) => ReceiveObjects(k, c, q, w, isr);
    case SetMode(_, _) =>
  }

  /** A mutex changes hands only by a take that found it free and by its holder's own unlock. */
  lemma StepMutex(k: State, a: Action, m: Mutex)
    requires Safe(k) && Enabled(k, a)
    ensures M(Apply(k, a), m) == MutexAfter(k, a, m)
    ensures Acquires(k, a, m) ==> !M(k, m).locked
    ensures Releases(k, a, m) ==> M(k, m) == MutexObj(true, Caller0(k))
  {
    assert Protocol(k);
    ProtocolLinks(k);
    hide Safe, Enabled, Apply, Protocol, Linked;
    match a
    case Lock(n, w) => LockStepMutex(k, n, w, m);
    case Unlock(n) => UnlockStepMutex(k, n, m);
    case Give(_) => CounterStepMutex(k, a, m);
    case Take(_, _, _) => CounterStepMutex(k, a, m);
    case Send(_, _, _) => CounterStepMutex(k, a, m);
    case Receive(_, _, _) => CounterStepMutex(k, a, m);
    case SetMode(_, _) => CounterStepMutex(k, a, m);
    case _ => OtherStepsKeepObjects(k, a);
  }

  datatype Hold = Got(t: Task) | Let(t: Task)

  /** The acquisitions and releases of m along a run. */
  function Trace(k: State, actions: seq<Action>, m: Mutex): seq<Hold>
    decreases |actions|
  {
    if actions == [] then []
    else (if Acquires(k, actions[0], m) then [Got(Caller0(k))] else if Releases(k, actions[0], m) then [Let(Caller0(k))] else [])
         + Trace(Apply(k, actions[0]), actions[1..], m)
  }

  function Holder(k: State, m: Mutex): Option<Task> { if M(k, m).locked then Some(M(k, m).owner) else None }

  /** Nobody gets what another holds, and only who got it lets it go. */
  predicate OneHolder(trace: seq<Hold>, holder: Option<Task>)
    decreases |trace|
  {
    trace == [] || match holder
                   case None => trace[0].Got? && OneHolder(trace[1..], Some(trace[0].t))
                   case Some(t) => trace[0] == Let(t) && OneHolder(trace[1..], None)
  }

  lemma HolderMoves(k: State, a: Action, m: Mutex)
    requires Safe(k) && Enabled(k, a)
    ensures Holder(Apply(k, a), m) == if Acquires(k, a, m) then Some(Caller0(k)) else if Releases(k, a, m) then None else Holder(k, m)
    ensures Acquires(k, a, m) ==> Holder(k, m).None?
    ensures Releases(k, a, m) ==> Holder(k, m) == Some(Caller0(k))
  {
    hide Safe, Enabled, Apply, Acquires, Releases;
    StepMutex(k, a, m);
  }

  /** Mutual exclusion, over every run: acquisitions and releases of a mutex alternate, and each release is
      the last acquirer's - through barging, timeouts, priority changes, pauses and deletes. */
  lemma {:induction false} MutualExclusion(k: State, actions: seq<Action>, m: Mutex)
    requires Safe(k) && IsRun(k, actions)
    ensures OneHolder(Trace(k, actions, m), Holder(k, m))
    decreases |actions|
  {
    hide Safe, Enabled, Apply, Acquires, Releases, Holder;
    if actions != [] {
      var a, k1 := actions[0], Apply(k, actions[0]);
      StepIsSafe(k, a);
      HolderMoves(k, a, m);
      MutualExclusion(k1, actions[1..], m);
      var rest := Trace(k1, actions[1..], m);
      assert ([Got(Caller0(k))] + rest)[1..] == rest && ([Let(Caller0(k))] + rest)[1..] == rest && [] + rest == rest;
    }
  }

  // ---------- tokens and items ----------

  /** Successful gives less successful takes of semaphore s in one step. */
  function Tokens(k: State, a: Action, s: nat): int {
    if a.Give? && a.s == s && SemGive(k, s).1 == Ok then 1
    else if a.Take? && a.s == s && SemTake(k, Caller0(k), s, a.w, a.isr).1 == Ok then -1 else 0
  }

  function AllTokens(k: State, actions: seq<Action>, s: nat): int
    decreases |actions|
  {
    if actions == [] then 0 else Tokens(k, actions[0], s) + AllTokens(Apply(k, actions[0]), actions[1..], s)
  }

  /** Items stored in a free slot less items received in one step; an overwrite replaces one. */
  function Items(k: State, a: Action, q: nat): int {
    if a.Send? && a.q == q && Q(k, q).count < Q(k, q).capacity then 1
    else if a.Receive? && a.q == q && QueueReceive(k, Caller0(k), q, a.w, a.isr).1 == Ok then -1 else 0
  }

  function AllItems(k: State, actions: seq<Action>, q: nat): int
    decreases |actions|
  {
    if actions == [] then 0 else Items(k, actions[0], q) + AllItems(Apply(k, actions[0]), actions[1..], q)
  }

  predicate CountsOk(k: State, s: nat, q: nat) { S(k, s).count <= S(k, s).max && Q(k, q).count <= Q(k, q).capacity }

  /** What one step may do to a semaphore and a queue. */
  predicate Ledger(k: State, k': State, s: nat, tokens: int, q: nat, items: int) {
    && S(k', s).count == S(k, s).count + tokens && S(k', s).max == S(k, s).max
    && Q(k', q).count == Q(k, q).count + items && Q(k', q).capacity == Q(k, q).capacity && CountsOk(k', s, q)
  }

  lemma GiveStepLedger(k: State, x: nat, s: nat, q: nat)
    requires Linked(k) && CountsOk(k, s, q)
    ensures Ledger(k, Apply(k, Give(x)), s, Tokens(k, Give(x), s), q, 0)
  {
    hide Linked, SemGive;
    GiveObjects(k, x);
  }

  lemma TakeStepLedger(k: State, x: nat, w: Wait, isr: bool, s: nat, q: nat)
    requires CountsOk(k, s, q)
    ensures Ledger(k, Apply(k, Take(x, w, isr)), s, Tokens(k, Take(x, w, isr), s), q, 0)
  {
    hide SemTake;
    TakeObjects(k, Caller0(k), x, w, isr);
  }

  /** The same objects, the same account. */
  lemma LedgerSame(k: State, k1: State, k': State, s: nat, tokens: int, q: nat, items: int)
    requires Ledger(k, k1, s, tokens, q, items) && SameObjects(k1, k')
    ensures Ledger(k, k', s, tokens, q, items)
  {
  }

  lemma CountLedger(k: State, x: nat, n: nat, s: nat, q: nat)
    requires CountsOk(k, s, q) && (x == q ==> n <= Q(k, x).capacity)
    ensures Ledger(k, WithQueue(k, x, n), s, 0, q, if x == q then n - Q(k, x).count else 0)
  {
  }

  lemma NoLedger(k: State, s: nat, q: nat)
    requires CountsOk(k, s, q)
    ensures Ledger(k, k, s, 0, q, 0)
  {
  }

  lemma SendStepLedger(k: State, x: nat, w: Wait, isr: bool, s: nat, q: nat)
    requires Linked(k) && CountsOk(k, s, q)
    ensures Ledger(k, QueueSend(k, Caller0(k), x, w, isr).0, s, 0, q, if x == q && Q(k, x).count < Q(k, x).capacity then 1 else 0)
  {
    hide Linked, QueueSend, Ledger, SameObjects;
    var k1 := if Q(k, x).count < Q(k, x).capacity then WithQueue(k, x, Q(k, x).count + 1) else k;
    SendObjects(k, Caller0(k), x, w, isr);
    CountLedger(k, x, if Q(k, x).count < Q(k, x).capacity then Q(k, x).count + 1 else 0, s, q);
    NoLedger(k, s, q);
    hide *;
    LedgerSame(k, k1, QueueSend(k, Caller0(k), x, w, isr).0, s, 0, q, if x == q && Q(k, x).count < Q(k, x).capacity then 1 else 0);
  }

  lemma ReceiveStepLedger(k: State, x: nat, w: Wait, isr: bool, s: nat, q: nat)
    requires Linked(k) && CountsOk(k, s, q)
    ensures var (k', status) := QueueReceive(k, Caller0(k), x, w, isr); Ledger(k, k', s, 0, q, if x == q && status == Ok then -1 else 0)
  {
    hide Linked, QueueReceive, Ledger, SameObjects;
    var (k', status) := QueueReceive(k, Caller0(k), x, w, isr);
    ReceiveObjects(k, Caller0(k), x, w, isr);
    NoLedger(k, s, q);
    if status == Ok {
      CountLedger(k, x, Q(k, x).count - 1, s, q);
      LedgerSame(k, WithQueue(k, x, Q(k, x).count - 1), k', s, 0, q, if x == q then -1 else 0);
    } else {
      LedgerSame(k, k, k', s, 0, q, 0);
    }
  }

  lemma QueueStepLedger(k: State, a: Action, s: nat, q: nat)
    requires Linked(k) && CountsOk(k, s, q) && (a.Send? || a.Receive? || a.SetMode?)
    ensures Ledger(k, Apply(k, a), s, Tokens(k, a, s), q, Items(k, a, q))
  {
    hide Linked, QueueSend, QueueReceive;
    if a.Send? { SendStepLedger(k, a.q, a.w, a.isr, s, q); }
    else if a.Receive? { ReceiveStepLedger(k, a.q, a.w, a.isr, s, q); }
  }

  lemma MutexLedger(k: State, m: Mutex, o: MutexObj, s: nat, q: nat)
    requires CountsOk(k, s, q)
    ensures Ledger(k, WithMutex(k, m, o), s, 0, q, 0)
  {
  }

  lemma LockStepLedger(k: State, m: Mutex, w: Wait, s: nat, q: nat)
    requires Safe(k) && Enabled(k, Lock(m, w)) && CountsOk(k, s, q)
    ensures Ledger(k, MutexLock(k, Caller0(k), m, w).0, s, 0, q, 0)
  {
    var c := Caller0(k);
    assert Protocol(k) && Caller(k, c, OfMutex(m));
    hide *;
    LockObjects(k, c, m, w);
    NoLedger(k, s, q);
    MutexLedger(k, m, MutexObj(true, c), s, q);
    var (k', status) := MutexLock(k, c, m, w);
    LedgerSame(k, if status == Ok then WithMutex(k, m, MutexObj(true, c)) else k, k', s, 0, q, 0);
  }

  lemma UnlockStepLedger(k: State, m: Mutex, s: nat, q: nat)
    requires Safe(k) && Enabled(k, Unlock(m)) && CountsOk(k, s, q)
    ensures Ledger(k, MutexUnlock(k, Caller0(k), m).0, s, 0, q, 0)
  {
    var c := Caller0(k);
    ProtocolLinks(k);
    assert Live(k, c) && c != IDLE;
    hide *;
    UnlockObjects(k, c, m);
    NoLedger(k, s, q);
    MutexLedger(k, m, MutexObj(false, 0), s, q);
    var (k', status) := MutexUnlock(k, c, m);
    LedgerSame(k, if status == Ok then WithMutex(k, m, MutexObj(false, 0)) else k, k', s, 0, q, 0);
  }

  lemma MutexStepLedger(k: State, a: Action, s: nat, q: nat)
    requires Safe(k) && Enabled(k, a) && CountsOk(k, s, q) && (a.Lock? || a.Unlock?)
    ensures Ledger(k, Apply(k, a), s, 0, q, 0)
  {
    hide Safe, Enabled, Ledger, MutexLock, MutexUnlock;
    if a.Lock? { LockStepLedger(k, a.m, a.w, s, q); } else { UnlockStepLedger(k, a.m, s, q); }
  }

  lemma StepLedger(k: State, a: Action, s: nat, q: nat)
    requires Safe(k) && Enabled(k, a) && CountsOk(k, s, q)
    ensures Ledger(k, Apply(k, a), s, Tokens(k, a, s), q, Items(k, a, q))
  {
    assert Protocol(k);
    ProtocolLinks(k);
    hide Safe, Enabled, Apply, Protocol, Linked;
    if a.Give? { GiveStepLedger(k, a.s, s, q); }
    else if a.Take? { TakeStepLedger(k, a.s, a.w, a.isr, s, q); }
    else if a.Send? || a.Receive? || a.SetMode? { QueueStepLedger(k, a, s, q); }
    else if a.Lock? || a.Unlock? { MutexStepLedger(k, a, s, q); }
    else { OtherStepsKeepObjects(k, a); }
  }

  /** Over every run a semaphore's count is what it was, plus the gives, less the takes that succeeded, and
      never above its limit; a queue's likewise, in slots. */
  lemma {:induction false} NothingMadeOrLost(k: State, actions: seq<Action>, s: nat, q: nat)
    requires Safe(k) && IsRun(k, actions) && CountsOk(k, s, q)
    ensures Ledger(k, After(k, actions), s, AllTokens(k, actions, s), q, AllItems(k, actions, q))
    decreases |actions|
  {
    hide Safe, Enabled, Apply, Tokens, Items;
    if actions != [] {
      StepIsSafe(k, actions[0]);
      StepLedger(k, actions[0], s, q);
      NothingMadeOrLost(Apply(k, actions[0]), actions[1..], s, q);
    }
  }
}
