/** The 32-bit words of the delay list over whole runs: a finite wait never reads as OS_WAIT_FOREVER, and no
    sum or difference of shares wraps. */
module Ranges {
  import opened Sequences
  import opened Kernel
  import opened Links
  import opened Operations
  import opened Scheduling
  import opened Preemption
  import opened Waking
  import opened NoLostWakeups
  import opened Timeouts
  import opened Runs
  import DeltaList

  predicate InRange(k: State) { DeltaList.InRange(k.delay) }

  lemma UnlinkRange(k: State, t: Task)
    requires Linked(k) && Live(k, t) && InRange(k)
    ensures InRange(Unlink(k, t))
  {
    UnlinkDelay(k, t);
    LeaveDelay(k, t);
    hide Linked, Unlink, LeaveStateList, DeltaList.InRange, DeltaList.Remove;
    DeltaList.RangeKept(k.delay, t, 0);
  }

  /** A task enters the list with a converted wait. */
  lemma EnterRange(l: seq<DeltaList.Entry>, c: Task, w: Wait)
    requires DeltaList.InRange(l) && Converted(w)
    ensures w.For? ==> DeltaList.InRange(DeltaList.Insert(l, c, w.ticks))
  {
    hide DeltaList.InRange, DeltaList.Insert;
    if w.For? { DeltaList.RangeKept(l, c, w.ticks); }
  }

  lemma WakeOneRange(k: State, q: WaitQ)
    requires Linked(k) && InRange(k)
    ensures InRange(WakeOne(k, q))
  {
    hide Linked, Unlink, MakeReady, PreemptRequest, InRange;
    if WaitersOf(k, q) != [] {
      var t := WaitersOf(k, q)[0];
      HeadWaits(k, q);
      ResumeDelay(Unlink(k, t), t, T(Unlink(k, t), t).(signaled := true, wokenFrom := Some(q)));
      UnlinkRange(k, t);
      SameRange(Unlink(k, t), WakeOne(k, q));
    }
  }

  lemma SameRange(k: State, k': State)
    requires InRange(k) && k'.delay == k.delay
    ensures InRange(k')
  {
  }

  lemma WakeBlockedRange(k: State, t: Task)
    requires Linked(k) && InRange(k)
    ensures InRange(WakeBlocked(k, t))
  {
    hide Linked, Unlink, MakeReady, PreemptRequest, InRange;
    if Live(k, t) && T(k, t).state == Blocked {
      ResumeDelay(Unlink(k, t), t, T(Unlink(k, t), t).(signaled := true));
      UnlinkRange(k, t);
      SameRange(Unlink(k, t), WakeBlocked(k, t));
    }
  }

  lemma ExpireRange(k: State, t: Task)
    requires Linked(k) && Live(k, t) && InRange(k)
    ensures InRange(ExpireWait(k, t))
  {
    hide Linked, Unlink, MakeReady, PreemptRequest, InRange;
    ReadyDelay(Unlink(k, t), t);
    UnlinkRange(k, t);
    SameRange(Unlink(k, t), ExpireWait(k, t));
  }

  lemma {:induction false} ExpireAllRange(k: State, due: seq<Task>)
    requires Protocol(k) && DelayedBut(k, multiset(due)) && InRange(k)
    ensures InRange(ExpireAll(k, due))
    decreases |due|
  {
    hide Protocol, DelayedBut, InRange;
    if due != [] {
      var t := due[0];
      DueSleeps(k, due);
      ProtocolLinks(k);
      ExpireProtocol(k, t);
      ExpireDelayed(k, t, multiset(due));
      ExpireRange(k, t);
      ExpireAllRange(ExpireWait(k, t), due[1..]);
    }
  }

  lemma TickRange(k: State, ticks: nat)
    requires Safe(k) && InRange(k)
    ensures InRange(TickUpdate(k, ticks))
  {
    if ticks != 0 {
      var k1 := k.(delay := DeltaList.Remaining(k.delay, ticks));
      DeltaList.RangeKept(k.delay, 0, ticks);
      hide Protocol, Scheduled, DelayedBut, DeltaList.InRange;
      TickTakes(k, ticks);
      SameProtocol(k, k1);
      ExpireAllRange(k1, DeltaList.Expired(k.delay, ticks));
    }
  }

  lemma StartRange(k: State, t: Task)
    requires Linked(k) && Live(k, t) && InRange(k)
    ensures InRange(TaskStart(k, t))
  {
    StartDelay(k, t);
    hide Linked, Unlink, TaskStart, InRange;
    UnlinkRange(k, t);
    SameRange(Unlink(k, t), TaskStart(k, t));
  }

  lemma CompensateRange(k: State, t: Task)
    requires Linked(k) && Live(k, t) && InRange(k)
    ensures InRange(WakeCompensate(k, t))
  {
    hide Linked, WakeOne, InRange;
    if T(k, t).state == Ready && T(k, t).signaled && T(k, t).wokenFrom.Some? {
      SpendFrame(k, t);
      SameRange(k, Spend(k, t));
      WakeOneRange(Spend(k, t), T(k, t).wokenFrom.value);
    }
  }

  lemma PauseRange(k: State, t: Task)
    requires Linked(k) && Live(k, t) && InRange(k)
    ensures InRange(TaskPause(k, t))
  {
    hide Linked, Unlink, WakeCompensate, InRange, SwitchRequest;
    PauseInSteps(k, t);
    if !Refused(k, t) {
      CompensateFrame(k, t);
      CompensateRange(k, t);
      ParkRange(WakeCompensate(k, t), t);
      RequestRange(Park(WakeCompensate(k, t), t));
    }
  }

  lemma ParkRange(k: State, t: Task)
    requires Linked(k) && Live(k, t) && InRange(k)
    ensures InRange(Park(k, t))
  {
    hide Linked, Unlink, InRange;
    MarkFrame(k, t);
    SameRange(k, Mark(k, t));
    UnlinkRange(Mark(k, t), t);
    SameRange(Unlink(Mark(k, t), t), Park(k, t));
  }

  lemma RequestRange(k: State)
    requires InRange(k)
    ensures InRange(SwitchRequest(k))
  {
  }

  lemma DeleteRange(k: State, t: Task)
    requires Linked(k) && Live(k, t) && T(k, t).owned == [] && InRange(k)
    ensures InRange(TaskDelete(k, t))
  {
    hide Linked, Unlink, WakeCompensate, InRange, SwitchRequest;
    DeleteInSteps(k, t);
    if !Refused(k, t) {
      CompensateFrame(k, t);
      CompensateRange(k, t);
      UnlinkRange(WakeCompensate(k, t), t);
      SameRange(Unlink(WakeCompensate(k, t), t), Forget(Unlink(WakeCompensate(k, t), t), t));
      RequestRange(Forget(Unlink(WakeCompensate(k, t), t), t));
    }
  }

  lemma SetPriorityRange(k: State, t: Task, p: nat)
    requires Linked(k) && Live(k, t) && InRange(k)
    ensures InRange(PrioritySet(k, t, p))
  {
    hide Linked, PriorityRecompute, InRange;
    if !T(k, t).system {
      PrioritySetTaskFrame(k, t, p);
      RecomputeDelay(SetTcb(k, t, T(k, t).(base := p)), t, MAX_DEPTH);
    }
    SameRange(k, PrioritySet(k, t, p));
  }

  lemma SleepRange(k: State, c: Task, w: Wait)
    requires InRange(k) && Converted(w)
    ensures InRange(Sleep(k, c, w))
  {
    EnterRange(k.delay, c, w);
    hide DeltaList.InRange, DeltaList.Insert;
    if k.lockCount == 0 && (w.For? || w.Forever?) { SleepEnters(k, c, w); }
  }

  lemma WaitBeginRange(k: State, c: Task, q: WaitQ, w: Wait)
    requires InRange(k) && Converted(w)
    ensures InRange(WaitBegin(k, c, q, w))
  {
    WaitBeginDelay(k, c, q, w);
    hide DeltaList.InRange, DeltaList.Insert, WaitBegin;
    EnterRange(k.delay, c, w);
  }

  lemma EndRange(k: State, isr: bool)
    requires InRange(k)
    ensures InRange(WaitEnd(k, isr))
  {
  }

  lemma SemRange(k: State, c: Task, s: nat, w: Wait, isr: bool)
    requires Linked(k) && InRange(k) && Converted(w)
    ensures InRange(SemGive(k, s).0) && InRange(SemTake(k, c, s, w, isr).0)
  {
    var k1 := k.(sems := k.sems[s := S(k, s).(count := S(k, s).count + 1)]);
    OnlyCountersLinked(k, k1);
    hide Linked, WakeOne, WaitEnd, WaitBegin;
    WakeOneRange(k1, OfSem(s));
    if S(k, s).count > 0 { EndRange(k.(sems := k.sems[s := S(k, s).(count := S(k, s).count - 1)]), isr); }
    EndRange(k, isr);
    WaitBeginRange(k, c, OfSem(s), w);
  }

  /** A queue's count changes, the other side is woken, the call ends. */
  lemma MoveRange(k: State, q: nat, n: nat, x: WaitQ, isr: bool)
    requires Linked(k) && InRange(k)
    ensures InRange(WaitEnd(WakeOne(k.(queues := k.queues[q := Q(k, q).(count := n)]), x), isr))
  {
    var k1 := k.(queues := k.queues[q := Q(k, q).(count := n)]);
    OnlyCountersLinked(k, k1);
    hide Linked, WakeOne, WaitEnd;
    WakeOneRange(k1, x);
    EndRange(WakeOne(k1, x), isr);
  }

  lemma QueueRange(k: State, c: Task, q: nat, w: Wait, isr: bool)
    requires Linked(k) && InRange(k) && Converted(w)
    ensures InRange(QueueSend(k, c, q, w, isr).0) && InRange(QueueReceive(k, c, q, w, isr).0)
  {
    hide Linked, InRange, WakeOne, WaitEnd, WaitBegin;
    MoveRange(k, q, Q(k, q).count + 1, Receivers(q), isr);
    if Q(k, q).count > 0 { MoveRange(k, q, Q(k, q).count - 1, Senders(q), isr); }
    WakeOneRange(k, Receivers(q));
    EndRange(WakeOne(k, Receivers(q)), isr);
    EndRange(k, isr);
    WaitBeginRange(k, c, Senders(q), w);
    WaitBeginRange(k, c, Receivers(q), w);
  }

  lemma DepartRange(k: State, c: Task)
    requires Linked(k) && Live(k, c) && T(k, c).waitList.None? && InRange(k)
    ensures InRange(WaiterDepart(k, c)) && InRange(WaitEnd(WaiterDepart(k, c), false))
  {
    EdgesHold(k, c);
    hide Linked, PriorityRecompute, InRange, WaitEnd;
    var r := Released(T(k, c));
    LocalFrame(k, c, r);
    RecomputeDelay(SetTcb(k, c, r), DebtOwner(k, c), MAX_DEPTH);
    assert WaiterDepart(k, c).delay == k.delay;
    SameRange(k, WaiterDepart(k, c));
    EndRange(WaiterDepart(k, c), false);
  }

  lemma LockRange(k: State, c: Task, m: Mutex, w: Wait)
    requires Protocol(k) && Caller(k, c, OfMutex(m)) && InRange(k) && Converted(w)
    ensures InRange(MutexLock(k, c, m, w).0)
  {
    CallerFacts(k, c, OfMutex(m));
    ProtocolLinks(k);
    hide Protocol, InRange, WaitEnd, WaitBegin, OwnerLink, WaiterDepart, PriorityInherit, Linked;
    if !M(k, m).locked {
      var k1 := OwnerLink(WithMutex(k, m, MutexObj(true, c)), c, m);
      OwnerLinkFrame(k, c, m);
      OnlyPrioritiesDelay(Acquired(k, c, m), k1);
      SameRange(k, k1);
      EndRange(k1, false);
    } else if M(k, m).owner == c || w.Nothing? || !CanBlock(k, false) || w.Spent? {
      DepartRange(k, c);
    } else {
      PendingDelay(k, c, m, w);
      SameRange(k, LockPending(k, c, m, w));
      WaitBeginRange(LockPending(k, c, m, w), c, OfMutex(m), w);
    }
  }

  lemma PendingDelay(k: State, c: Task, m: Mutex, w: Wait)
    requires Linked(k) && Live(k, c) && T(k, c).waitList.None? && M(k, m).locked && M(k, m).owner != c
    ensures LockPending(k, c, m, w).delay == k.delay
  {
    EdgesHold(k, c);
    var r := T(k, c).(doing := Some(OfMutex(m)));
    hide Linked, PriorityInherit;
    LocalFrame(k, c, r);
    InheritDelay(SetTcb(k, c, r), c, M(k, m).owner);
  }

  lemma UnlockRange(k: State, c: Task, m: Mutex)
    requires Linked(k) && Live(k, c) && c != IDLE && InRange(k)
    ensures InRange(MutexUnlock(k, c, m).0)
  {
    LockedOwned(k, m);
    hide Linked, InRange, WakeOne, OwnerUnlink;
    if M(k, m).locked && M(k, m).owner == c {
      var k1 := OwnerUnlink(WithMutex(k, m, MutexObj(false, 0)), c, m);
      OwnerUnlinkFrame(k, c, m);
      OnlyPrioritiesDelay(Unowned(k, c, m), k1);
      SameRange(k, k1);
      WakeOneRange(k1, OfMutex(m));
    }
  }

  lemma LoneDepartRange(k: State, c: Task, q: WaitQ)
    requires Protocol(k) && Caller(k, c, q) && InRange(k)
    ensures InRange(WaiterDepart(k, c))
  {
    CallerFacts(k, c, q);
    ProtocolLinks(k);
    hide Protocol, Linked, InRange, WaitEnd, WaiterDepart;
    DepartRange(k, c);
  }

  lemma GiveUpRange(k: State, c: Task, q: WaitQ)
    requires Protocol(k) && Caller(k, c, q) && InRange(k)
    ensures InRange(WaitTimedOut(k, c))
  {
    CallerFacts(k, c, q);
    ProtocolLinks(k);
    hide Protocol, Linked, InRange, WaitEnd, WaiterDepart;
    DepartRange(k, c);
    EndRange(k, false);
  }

  lemma SwitchRange(k: State)
    requires Scheduled(k) && InRange(k)
    ensures InRange(PendSv(k))
  {
    hide Scheduled, InRange, PendSv;
    PendSvKeeps(k);
    SameRange(k, PendSv(k));
  }

  lemma TaskCallInRange(k: State, a: Action)
    requires Linked(k) && Enabled(k, a) && InRange(k)
    requires a.Create? || a.Start? || a.Pause? || a.Delete? || a.SetPriority? || a.Wake?
    ensures InRange(Apply(k, a))
  {
    hide Linked, InRange, TaskStart, TaskPause, TaskDelete, PrioritySet, WakeBlocked;
    match a
    case Create(t, p, system) => SameRange(k, TaskCreate(k, t, p, system));
    case Start(t) => StartRange(k, t);
    case Pause(t) => PauseRange(k, t);
    case Delete(t) => DeleteRange(k, t);
    case SetPriority(t, p) => SetPriorityRange(k, t, p);
    case Wake(t) => WakeBlockedRange(k, t);
  }

  lemma ObjectCallInRange(k: State, a: Action)
    requires Protocol(k) && Linked(k) && Enabled(k, a) && InRange(k)
    requires a.Lock? || a.Unlock? || a.Give? || a.Take? || a.Send? || a.Receive?
    ensures InRange(Apply(k, a))
  {
    var c := Caller0(k);
    hide Protocol, Linked, InRange, MutexLock, MutexUnlock, SemGive, SemTake, QueueSend, QueueReceive;
    match a
    case Lock(m, w) => LockRange(k, c, m, w);
    case Unlock(m) => UnlockRange(k, c, m);
    case Give(s) => SemRange(k, c, s, Forever, false);
    case Take(s, w, isr) => SemRange(k, c, s, w, isr);
    case Send(q, w, isr) => QueueRange(k, c, q, w, isr);
    case Receive(q, w, isr) => QueueRange(k, c, q, w, isr);
  }

  lemma EndStepInRange(k: State, a: Action)
    requires Safe(k) && Enabled(k, a) && InRange(k) && (a.Depart? || a.GiveUp?)
    ensures InRange(Apply(k, a))
  {
    hide Protocol, Scheduled, DelayedBut, InRange, WaitTimedOut, WaiterDepart;
    var c := Caller0(k);
    LoneDepartRange(k, c, T(k, c).doing.value);
    GiveUpRange(k, c, T(k, c).doing.value);
  }

  /** The steps of the switch, the tick and the running task alone. */
  lemma LocalStepInRange(k: State, a: Action)
    requires Safe(k) && Enabled(k, a) && InRange(k)
    requires a.SleepFor? || a.Yield? || a.SetMode? || a.Tick? || a.Switch? || a.LockScheduler? || a.UnlockScheduler?
    ensures InRange(Apply(k, a))
  {
    hide Protocol, Scheduled, DelayedBut, DeltaList.InRange, PendSv, TickUpdate, Sleep, SwitchRequest;
    match a
    case SleepFor(w) => SleepRange(k, Caller0(k), w);
    case Yield => RequestRange(k);
    case SetMode(q, mode) => SameRange(k, Apply(k, a));
    case Tick(ticks) => TickRange(k, ticks);
    case Switch => SwitchRange(k);
    case LockScheduler => SameRange(k, KernelLock(k));
    case UnlockScheduler => SameRange(k, KernelUnlock(k));
  }

  /** No step carries a share out of the range of finite waits. */
  lemma StepInRange(k: State, a: Action)
    requires Safe(k) && Enabled(k, a) && InRange(k)
    ensures InRange(Apply(k, a))
  {
    assert Protocol(k);
    ProtocolLinks(k);
    hide *;
    if a.Lock? || a.Unlock? || a.Give? || a.Take? || a.Send? || a.Receive? {
      ObjectCallInRange(k, a);
    } else if a.Create? || a.Start? || a.Pause? || a.Delete? || a.SetPriority? || a.Wake? {
      TaskCallInRange(k, a);
    } else if a.Depart? || a.GiveUp? {
      EndStepInRange(k, a);
    } else {
      LocalStepInRange(k, a);
    }
  }

  // ---------- what the words say ----------

  /** The delay_ticks word of a blocked task: its share while the delay list holds it, else the sentinel its
      unlimited wait stored. */
  function Word(k: State, t: Task): nat {
    if t in DeltaList.Ids(k.delay) then Share(k.delay, t) else DeltaList.WAIT_FOREVER
  }

  function Share(l: seq<DeltaList.Entry>, t: Task): nat
    requires t in DeltaList.Ids(l)
  {
    if l[0].id == t then l[0].delta else Share(l[1..], t)
  }

  lemma {:induction false} ShareInSpan(l: seq<DeltaList.Entry>, t: Task)
    requires t in DeltaList.Ids(l)
    ensures Share(l, t) <= DeltaList.Span(l)
  {
    if l[0].id != t {
      ShareInSpan(l[1..], t);
    }
  }

  /** The source's test on the word and the model's `timed` agree on every blocked task. */
  lemma WordTellsTimed(k: State, t: Task)
    requires Delayed(k) && InRange(k) && T(k, t).state == Blocked
    ensures T(k, t).timed <==> Word(k, t) != DeltaList.WAIT_FOREVER
  {
    var none: multiset<Task> := multiset{};
    assert Entries(k, t) + none[t] == if Sleeping(T(k, t)) then 1 else 0;
    if t in DeltaList.Ids(k.delay) { ShareInSpan(k.delay, t); }
  }

  /** In every reachable state each share is a finite 32-bit wait, the test for the sentinel tells exactly
      the timed waiters, and every insertion, removal and tick computed on wrapping words is the one
      computed on numbers. */
  lemma {:induction false} EveryReachableWordIsExact(k: State, actions: seq<Action>)
    requires Safe(k) && InRange(k) && IsRun(k, actions)
    ensures var k' := After(k, actions);
            && InRange(k') && (forall i :: 0 <= i < |k'.delay| ==> k'.delay[i].delta < DeltaList.WAIT_FOREVER)
            && (forall t :: T(k', t).state == Blocked ==> (T(k', t).timed <==> Word(k', t) != DeltaList.WAIT_FOREVER))
    ensures var l := After(k, actions).delay;
            forall t, n: nat :: n < DeltaList.WORD ==> DeltaList.SameOnWords(l, t, n)
    decreases |actions|
  {
    if actions == [] {
      assert Delayed(k);
      DeltaList.NoWordIsForever(k.delay, 0);
      forall t | T(k, t).state == Blocked ensures T(k, t).timed <==> Word(k, t) != DeltaList.WAIT_FOREVER { WordTellsTimed(k, t); }
      forall t, n: nat | n < DeltaList.WORD ensures DeltaList.SameOnWords(k.delay, t, n) { DeltaList.WordsAreExact(k.delay, t, n); }
    } else {
      hide Safe, Enabled, Apply, InRange, Word, DeltaList.SameOnWords;
      StepIsSafe(k, actions[0]);
      StepInRange(k, actions[0]);
      EveryReachableWordIsExact(Apply(k, actions[0]), actions[1..]);
    }
  }
}
