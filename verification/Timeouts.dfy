/** The delay list and the blocked tasks name each other: every task blocked with a finite budget has
    exactly one entry, and nobody else has one - so a tick only ever expires tasks that wait. */
module Timeouts {
  import opened Sequences
  import opened Kernel
  import opened Links
  import opened Operations
  import DeltaList

  predicate Sleeping(r: Tcb) { r.state == Blocked && r.timed }

  function Entries(k: State, t: Task): nat { multiset(DeltaList.Ids(k.delay))[t] }

  /** Entries in the list, with the ones already taken off it and not yet expired. */
  ghost predicate DelayedBut(k: State, due: multiset<Task>) {
    forall t :: Entries(k, t) + due[t] == if Sleeping(T(k, t)) then 1 else 0
  }

  ghost predicate Delayed(k: State) { DelayedBut(k, multiset{}) }

  /** No list entry moves and nobody falls asleep or wakes. */
  lemma DelayKept(k: State, k': State, t: Task, r: Tcb, due: multiset<Task>)
    requires DelayedBut(k, due) && Rewrites(k, k', t, r) && k'.delay == k.delay && Sleeping(r) == Sleeping(T(k, t))
    ensures DelayedBut(k', due)
  {
    forall x ensures Entries(k', x) + due[x] == if Sleeping(T(k', x)) then 1 else 0 {
      assert T(k', x) == (if x == t then r else T(k, x)).(prio := T(k', x).prio);
      assert Entries(k, x) + due[x] == if Sleeping(T(k, x)) then 1 else 0;
    }
  }

  lemma LeaveDelay(k: State, t: Task)
    ensures LeaveStateList(k, t).delay == if Sleeping(T(k, t)) then DeltaList.Remove(k.delay, t) else k.delay
  {
  }

  lemma EntriesLeft(k: State, k': State, t: Task, x: Task)
    requires k'.delay == LeaveStateList(k, t).delay
    ensures x != t ==> Entries(k', x) == Entries(k, x)
    ensures Entries(k', t) == if Sleeping(T(k, t)) && Entries(k, t) > 0 then Entries(k, t) - 1 else Entries(k, t)
  {
    LeaveDelay(k, t);
    DeltaList.RemoveIds(k.delay, t);
    hide LeaveStateList, DeltaList.Remove, DeltaList.Ids;
  }

  lemma SleepsAs(k: State, k': State, t: Task, r: Tcb, x: Task)
    requires Rewrites(k, k', t, r)
    ensures Sleeping(T(k', x)) == if x == t then Sleeping(r) else Sleeping(T(k, x))
  {
    assert T(k', x) == (if x == t then r else T(k, x)).(prio := T(k', x).prio);
  }

  lemma DelayLeftAt(k: State, k': State, t: Task, r: Tcb, due: multiset<Task>, x: Task)
    requires DelayedBut(k, due) && Rewrites(k, k', t, r) && k'.delay == LeaveStateList(k, t).delay && !Sleeping(r)
    ensures Entries(k', x) + (due - multiset{t})[x] == if Sleeping(T(k', x)) then 1 else 0
  {
    EntriesLeft(k, k', t, x);
    SleepsAs(k, k', t, r, x);
    assert Entries(k, x) + due[x] == if Sleeping(T(k, x)) then 1 else 0;
    assert x != t ==> (due - multiset{t})[x] == due[x];
    hide LeaveStateList, Entries, Rewrites, Sleeping, DelayedBut;
  }

  /** t leaves its state list and does not sleep again; a due task's entry was spent before. */
  lemma DelayLeft(k: State, k': State, t: Task, r: Tcb, due: multiset<Task>)
    requires DelayedBut(k, due) && Rewrites(k, k', t, r) && k'.delay == LeaveStateList(k, t).delay && !Sleeping(r)
    ensures DelayedBut(k', due - multiset{t})
  {
    hide LeaveStateList, Rewrites;
    forall x ensures Entries(k', x) + (due - multiset{t})[x] == if Sleeping(T(k', x)) then 1 else 0 {
      DelayLeftAt(k, k', t, r, due, x);
    }
  }

  /** A running task falls asleep, for a time or for good. */
  lemma DelayEntered(k: State, k': State, c: Task, r: Tcb, w: Wait)
    requires Delayed(k) && Rewrites(k, k', c, r) && !Sleeping(T(k, c)) && Sleeping(r) == w.For?
    requires k'.delay == if w.For? then DeltaList.Insert(k.delay, c, w.ticks) else k.delay
    ensures Delayed(k')
  {
    if w.For? { DeltaList.InsertIds(k.delay, c, w.ticks); }
    forall x ensures Entries(k', x) + multiset{}[x] == if Sleeping(T(k', x)) then 1 else 0 {
      assert T(k', x) == (if x == c then r else T(k, x)).(prio := T(k', x).prio);
      assert Entries(k, x) + multiset{}[x] == if Sleeping(T(k, x)) then 1 else 0;
    }
  }

  lemma NoneDue(k: State, t: Task)
    ensures multiset{} - multiset{t} == multiset{}
  {
  }

  // ---------- the delay list through each step ----------

  lemma RecomputeDelay(k: State, t: Task, n: nat)
    requires Linked(k)
    ensures PriorityRecompute(k, t, n).delay == k.delay
  {
    RecomputeFrame(k, t, n);
  }

  lemma UnlinkDelay(k: State, t: Task)
    requires Linked(k) && Live(k, t)
    ensures Unlink(k, t).delay == LeaveStateList(k, t).delay
  {
    UnlinkInSteps(k, t);
    hide Linked, Unlink, LeaveStateList, PriorityRecompute, LeaveAndClear;
    var k1 := LeaveStateList(k, t);
    OnlyListsLinked(k, k1);
    if T(k, t).waitList.Some? {
      LeaveAndClearFrame(k1, T(k, t).waitList.value, t);
      assert LeaveAndClear(k1, T(k, t).waitList.value, t).delay == k1.delay by { LeaveKeepsDelay(k1, T(k, t).waitList.value, t); }
      RecomputeDelay(LeaveAndClear(k1, T(k, t).waitList.value, t), DebtOwner(k, t), MAX_DEPTH);
    }
  }

  lemma LeaveKeepsDelay(k: State, q: WaitQ, t: Task)
    ensures LeaveAndClear(k, q, t).delay == k.delay
  {
  }

  lemma ReadyDelay(k: State, t: Task)
    ensures PreemptRequest(MakeReady(k, t), t).delay == k.delay && PreemptRequest(k, t).delay == k.delay
  {
    assert MakeReady(k, t).delay == k.delay;
    hide MakeReady;
    RequestFrame(MakeReady(k, t), t);
    RequestFrame(k, t);
  }

  lemma ResumeDelay(k: State, t: Task, r: Tcb)
    ensures Resume(k, t, r).delay == k.delay
  {
    hide MakeReady, PreemptRequest;
    ReadyDelay(SetTcb(k, t, r), t);
  }

  /** Any wake: the task that leaves takes its entry with it. */
  lemma UnlinkResumeDelayed(k: State, k': State, t: Task, r: Tcb, due: multiset<Task>)
    requires Linked(k) && Live(k, t) && DelayedBut(k, due) && Rewrites(k, k', t, r) && r.state != Blocked
    requires k'.delay == Unlink(k, t).delay
    ensures DelayedBut(k', due - multiset{t})
  {
    UnlinkDelay(k, t);
    hide Linked, Unlink, LeaveStateList, Rewrites, DelayedBut;
    DelayLeft(k, k', t, r, due);
  }

  lemma WakeOneDelayed(k: State, q: WaitQ)
    requires Linked(k) && Delayed(k)
    ensures Delayed(WakeOne(k, q))
  {
    hide Linked, Unlink, Becomes, Rewrites, DelayedBut, MakeReady, PreemptRequest;
    WakeOneFrame(k, q);
    if WaitersOf(k, q) != [] {
      var t := WaitersOf(k, q)[0];
      HeadWaits(k, q);
      ResumeDelay(Unlink(k, t), t, T(Unlink(k, t), t).(signaled := true, wokenFrom := Some(q)));
      BecomesRewrites(k, WakeOne(k, q), t, Signaled(T(k, t), q));
      NoneDue(k, t);
      UnlinkResumeDelayed(k, WakeOne(k, q), t, Signaled(T(k, t), q), multiset{});
    }
  }

  lemma WakeBlockedDelayed(k: State, t: Task)
    requires Linked(k) && Delayed(k)
    ensures Delayed(WakeBlocked(k, t))
  {
    if Live(k, t) && T(k, t).state == Blocked {
      ResumeDelay(Unlink(k, t), t, T(Unlink(k, t), t).(signaled := true));
      assert WakeBlocked(k, t).delay == Unlink(k, t).delay;
      hide Linked, Unlink, Becomes, Rewrites, DelayedBut, WakeBlocked;
      WakeBlockedFrame(k, t);
      var r := Left(T(k, t)).(signaled := true, state := Ready);
      BecomesRewrites(k, WakeBlocked(k, t), t, r);
      NoneDue(k, t);
      UnlinkResumeDelayed(k, WakeBlocked(k, t), t, r, multiset{});
    }
  }

  lemma ExpireDelayed(k: State, t: Task, due: multiset<Task>)
    requires Linked(k) && Live(k, t) && DelayedBut(k, due)
    ensures DelayedBut(ExpireWait(k, t), due - multiset{t})
  {
    assert ExpireWait(k, t).delay == Unlink(k, t).delay by {
      hide Unlink, MakeReady, PreemptRequest;
      ReadyDelay(Unlink(k, t), t);
    }
    hide Linked, Unlink, Becomes, Rewrites, DelayedBut, ExpireWait;
    ExpireWaitFrame(k, t);
    var r := Left(T(k, t)).(state := Ready);
    BecomesRewrites(k, ExpireWait(k, t), t, r);
    UnlinkResumeDelayed(k, ExpireWait(k, t), t, r, due);
  }

  lemma StartDelay(k: State, t: Task)
    requires Linked(k) && Live(k, t)
    ensures TaskStart(k, t).delay == Unlink(k, t).delay
  {
    if k.current == Some(t) {
      SelfStartIs(k, t);
      hide Unlink, Linked, TaskStart, PreemptRequest;
      ReadyDelay(SetTcb(Unlink(k, t), t, Started(T(Unlink(k, t), t), T(k, t).state == Blocked, true)), t);
    } else {
      StartIsResume(k, t);
      hide Unlink, Linked, TaskStart, Resume;
      ResumeDelay(Unlink(k, t), t, T(Unlink(k, t), t).(signaled := T(k, t).signaled || T(k, t).state == Blocked, wokenFrom := T(k, t).wokenFrom));
    }
  }

  lemma StartDelayed(k: State, t: Task)
    requires Linked(k) && Live(k, t) && Delayed(k)
    ensures Delayed(TaskStart(k, t))
  {
    StartDelay(k, t);
    hide Linked, Unlink, Becomes, Rewrites, DelayedBut, TaskStart;
    TaskStartFrame(k, t);
    var r := Started(Left(T(k, t)), T(k, t).state == Blocked, k.current == Some(t));
    BecomesRewrites(k, TaskStart(k, t), t, r);
    NoneDue(k, t);
    UnlinkResumeDelayed(k, TaskStart(k, t), t, r, multiset{});
  }

  lemma CompensateDelayed(k: State, t: Task)
    requires Linked(k) && Live(k, t) && Delayed(k)
    ensures Delayed(WakeCompensate(k, t))
  {
    hide Linked, Becomes, Rewrites, DelayedBut, WakeOne;
    if T(k, t).state == Ready && T(k, t).signaled && T(k, t).wokenFrom.Some? {
      SpendFrame(k, t);
      BecomesRewrites(k, Spend(k, t), t, T(k, t).(wokenFrom := None));
      DelayKept(k, Spend(k, t), t, T(k, t).(wokenFrom := None), multiset{});
      WakeOneDelayed(Spend(k, t), T(k, t).wokenFrom.value);
    }
  }

  lemma ParkDelayed(k: State, t: Task)
    requires Linked(k) && Live(k, t) && Delayed(k)
    ensures Delayed(Park(k, t))
  {
    MarkFrame(k, t);
    ParkFrame(k, t);
    var k1 := Mark(k, t);
    UnlinkDelay(k1, t);
    assert LeaveStateList(k1, t).delay == LeaveStateList(k, t).delay;
    assert Park(k, t).delay == Unlink(k1, t).delay by { hide Unlink; }
    hide Linked, Unlink, Becomes, Rewrites, DelayedBut, LeaveStateList, Park, Mark;
    var r := Left(T(k, t)).(signaled := T(k, t).signaled || T(k, t).state == Blocked, state := Suspended);
    BecomesRewrites(k, Park(k, t), t, r);
    NoneDue(k, t);
    DelayLeft(k, Park(k, t), t, r, multiset{});
  }

  lemma RequestDelayed(k: State)
    requires Delayed(k)
    ensures Delayed(SwitchRequest(k))
  {
    SameDelayed(k, SwitchRequest(k));
  }

  lemma SameDelayed(k: State, k': State)
    requires Delayed(k) && k'.tcb == k.tcb && k'.delay == k.delay
    ensures Delayed(k')
  {
    forall x ensures Entries(k', x) + multiset{}[x] == if Sleeping(T(k', x)) then 1 else 0 {
      assert Entries(k, x) + multiset{}[x] == if Sleeping(T(k, x)) then 1 else 0;
    }
  }

  lemma PauseDelayed(k: State, t: Task)
    requires Linked(k) && Live(k, t) && Delayed(k)
    ensures Delayed(TaskPause(k, t))
  {
    PauseInSteps(k, t);
    CompensateFrame(k, t);
    hide Linked, Delayed, TaskPause, WakeCompensate, Park, SwitchRequest;
    if !Refused(k, t) {
      CompensateDelayed(k, t);
      ParkDelayed(WakeCompensate(k, t), t);
      RequestDelayed(Park(WakeCompensate(k, t), t));
    }
  }

  lemma DeleteDelayed(k: State, t: Task)
    requires Linked(k) && Live(k, t) && T(k, t).owned == [] && Delayed(k)
    ensures Delayed(TaskDelete(k, t))
  {
    DeleteInSteps(k, t);
    CompensateFrame(k, t);
    var k1 := WakeCompensate(k, t);
    LeftIsAt(k1, t);
    LeftKeeps(T(k1, t));
    UnlinkDelay(k1, t);
    UnlinkFrame(k1, t);
    hide Linked, Becomes, Rewrites, DelayedBut, TaskDelete, WakeCompensate, Unlink, Left, SwitchRequest, LeaveStateList;
    if !Refused(k, t) {
      CompensateDelayed(k, t);
      var k2 := Unlink(k1, t);
      BecomesRewrites(k1, k2, t, Left(T(k1, t)));
      ForgetFrame(k2, t);
      RewritesTwice(k1, k2, Forget(k2, t), t, Left(T(k1, t)), CLEARED);
      NoneDue(k, t);
      DelayLeft(k1, Forget(k2, t), t, CLEARED, multiset{});
      RequestDelayed(Forget(k2, t));
    }
  }

  lemma RewritesTwice(k: State, k1: State, k2: State, t: Task, r1: Tcb, r2: Tcb)
    requires Rewrites(k, k1, t, r1) && Rewrites(k1, k2, t, r2)
    ensures Rewrites(k, k2, t, r2)
  {
    forall x ensures T(k2, x) == (if x == t then r2 else T(k, x)).(prio := T(k2, x).prio) {
      assert T(k1, x) == (if x == t then r1 else T(k, x)).(prio := T(k1, x).prio);
      assert T(k2, x) == (if x == t then r2 else T(k1, x)).(prio := T(k2, x).prio);
    }
  }

  lemma CreateDelayed(k: State, t: Task, p: nat, system: bool)
    requires Linked(k) && Delayed(k) && !Live(k, t) && t != IDLE
    ensures Delayed(TaskCreate(k, t, p, system))
  {
    CreateFrame(k, t, p, system);
    hide Linked, Rewrites, DelayedBut;
    DelayKept(k, TaskCreate(k, t, p, system), t, CLEARED.(base := p, prio := p, state := Suspended, system := system), multiset{});
  }

  lemma PrioritySetDelayed(k: State, t: Task, p: nat)
    requires Linked(k) && Live(k, t) && Delayed(k)
    ensures Delayed(PrioritySet(k, t, p))
  {
    if !T(k, t).system {
      hide Linked, Becomes, Rewrites, DelayedBut, PriorityRecompute;
      PrioritySetTaskFrame(k, t, p);
      RecomputeDelay(SetTcb(k, t, T(k, t).(base := p)), t, MAX_DEPTH);
      BecomesRewrites(k, PrioritySet(k, t, p), t, T(k, t).(base := p));
      DelayKept(k, PrioritySet(k, t, p), t, T(k, t).(base := p), multiset{});
    }
  }

  /** A timed sleeper enters the delay list, an untimed one does not. */
  lemma SleepEnters(k: State, c: Task, w: Wait)
    requires k.lockCount == 0 && (w.For? || w.Forever?)
    ensures Sleep(k, c, w).delay == if w.For? then DeltaList.Insert(k.delay, c, w.ticks) else k.delay
  {
  }

  lemma SleepDelayed(k: State, c: Task, w: Wait)
    requires Linked(k) && Live(k, c) && Delayed(k) && T(k, c).waitList.None? && T(k, c).state == Running
    ensures Delayed(Sleep(k, c, w))
  {
    if k.lockCount == 0 && (w.For? || w.Forever?) {
      SleepFrame(k, c, w);
      SleepEnters(k, c, w);
      hide Linked, Becomes, Rewrites, DelayedBut, Sleep;
      var r := T(k, c).(state := Blocked, timed := w.For?);
      BecomesRewrites(k, Sleep(k, c, w), c, r);
      DelayEntered(k, Sleep(k, c, w), c, r, w);
    }
  }

  lemma WaitBeginDelay(k: State, c: Task, q: WaitQ, w: Wait)
    ensures WaitBegin(k, c, q, w).delay == if w.For? then DeltaList.Insert(k.delay, c, w.ticks) else k.delay
  {
    hide Ranked;
  }

  /** Whatever the wait is on: the caller's entry is in the list exactly for a finite budget. */
  lemma WaitBeginDelayed(k: State, k0: State, c: Task, q: WaitQ, w: Wait)
    requires Delayed(k) && T(k, c).state == Running && k0.delay == k.delay && Becomes(k, k0, c, T(k0, c))
    requires Becomes(k0, WaitBegin(k0, c, q, w), c, Queueing(T(k0, c), q, w))
    ensures Delayed(WaitBegin(k0, c, q, w))
  {
    WaitBeginDelay(k0, c, q, w);
    BecomesTwice(k, k0, WaitBegin(k0, c, q, w), c, T(k0, c), Queueing(T(k0, c), q, w));
    BecomesRewrites(k, WaitBegin(k0, c, q, w), c, Queueing(T(k0, c), q, w));
    hide Becomes, Rewrites, DelayedBut, WaitBegin;
    DelayEntered(k, WaitBegin(k0, c, q, w), c, Queueing(T(k0, c), q, w), w);
  }

  lemma WaitEndDelayed(k: State, isr: bool)
    requires Delayed(k)
    ensures Delayed(WaitEnd(k, isr))
  {
    if !isr && k.current.Some? && Live(k, k.current.value) {
      var c := k.current.value;
      assert Rewrites(k, WaitEnd(k, isr), c, Finished(T(k, c)));
      DelayKept(k, WaitEnd(k, isr), c, Finished(T(k, c)), multiset{});
    }
  }

  lemma DispatchDelayed(k: State, k': State)
    requires Delayed(k) && OnlyDispatch(k, k')
    ensures Delayed(k')
  {
    forall x ensures Entries(k', x) + multiset{}[x] == if Sleeping(T(k', x)) then 1 else 0 {
      assert Entries(k, x) + multiset{}[x] == if Sleeping(T(k, x)) then 1 else 0;
      assert T(k', x) == T(k, x).(state := T(k', x).state);
    }
  }

  lemma InheritDelay(k: State, c: Task, o: Task)
    requires Linked(k) && Live(k, c) && EdgeOf(T(k, c).doing).Some? && c != o
    ensures PriorityInherit(k, c, o).delay == k.delay
  {
    EdgesHold(k, c);
    if Live(k, o) {
      hide Linked, Becomes, OnlyPriorities, PriorityRecompute, EffectivePrioritySet;
      var r := T(k, c).(piOwner := o);
      var k1 := SetTcb(k, c, r);
      LocalFrame(k, c, r);
      var k2 := EffectivePrioritySet(k1, o, T(k1, c).prio);
      PrioritySetLinked(k1, o, T(k1, c).prio);
      assert k2.delay == k1.delay by { OnlyPrioritiesDelay(k1, k2); }
      if T(k2, o).blockedOn.Some? {
        RecomputeDelay(k2, M(k2, T(k2, o).blockedOn.value).owner, MAX_DEPTH);
      }
    }
  }

  lemma OnlyPrioritiesDelay(k: State, k': State)
    requires OnlyPriorities(k, k')
    ensures k'.delay == k.delay
  {
  }

  lemma LockWaitDelayed(k: State, c: Task, m: Mutex, w: Wait)
    requires Linked(k) && Live(k, c) && T(k, c).waitList.None? && T(k, c).state == Running && Delayed(k)
    requires M(k, m).locked && M(k, m).owner != c
    ensures Delayed(WaitBegin(LockPending(k, c, m, w), c, OfMutex(m), w))
  {
    EdgesHold(k, c);
    LockWaitFrame(k, c, m, w);
    var r := T(k, c).(doing := Some(OfMutex(m)));
    LocalFrame(k, c, r);
    assert T(SetTcb(k, c, r), c) == r;
    InheritDelay(SetTcb(k, c, r), c, M(k, m).owner);
    hide Linked, Becomes, PriorityInherit, WaitBegin, DelayedBut;
    assert LockPending(k, c, m, w).delay == k.delay;
    hide LockPending;
    WaitBeginDelayed(k, LockPending(k, c, m, w), c, OfMutex(m), w);
  }

  lemma DepartDelayed(k: State, t: Task)
    requires Linked(k) && Live(k, t) && T(k, t).waitList.None? && Delayed(k)
    ensures Delayed(WaiterDepart(k, t))
  {
    EdgesHold(k, t);
    hide Linked, Becomes, Rewrites, DelayedBut, PriorityRecompute;
    WaiterDepartFrame(k, t);
    var r := Released(T(k, t));
    LocalFrame(k, t, r);
    RecomputeDelay(SetTcb(k, t, r), DebtOwner(k, t), MAX_DEPTH);
    BecomesRewrites(k, WaiterDepart(k, t), t, r);
    DelayKept(k, WaiterDepart(k, t), t, r, multiset{});
  }

  lemma AcquireDelayed(k: State, c: Task, m: Mutex)
    requires Linked(k) && Live(k, c) && !M(k, m).locked && Delayed(k)
    ensures Delayed(OwnerLink(WithMutex(k, m, MutexObj(true, c)), c, m))
  {
    hide Linked, Becomes, Rewrites, DelayedBut, PriorityRecompute, OnlyPriorities;
    var k0 := WithMutex(k, m, MutexObj(true, c));
    OwnerLinkFrame(k, c, m);
    OnlyPrioritiesDelay(Acquired(k, c, m), OwnerLink(k0, c, m));
    MutexRewrites(k, OwnerLink(k0, c, m), m, MutexObj(true, c), c, T(k, c).(owned := T(k, c).owned + [m]));
    DelayKept(k, OwnerLink(k0, c, m), c, T(k, c).(owned := T(k, c).owned + [m]), multiset{});
  }

  lemma ReleaseDelayed(k: State, c: Task, m: Mutex)
    requires Linked(k) && Live(k, c) && M(k, m).locked && M(k, m).owner == c && Delayed(k)
    ensures Delayed(OwnerUnlink(WithMutex(k, m, MutexObj(false, 0)), c, m))
  {
    hide Linked, Becomes, Rewrites, DelayedBut, PriorityRecompute, OnlyPriorities, Without;
    var k0 := WithMutex(k, m, MutexObj(false, 0));
    OwnerUnlinkFrame(k, c, m);
    OnlyPrioritiesDelay(Unowned(k, c, m), OwnerUnlink(k0, c, m));
    MutexRewrites(k, OwnerUnlink(k0, c, m), m, MutexObj(false, 0), c, T(k, c).(owned := Without(T(k, c).owned, m)));
    DelayKept(k, OwnerUnlink(k0, c, m), c, T(k, c).(owned := Without(T(k, c).owned, m)), multiset{});
  }

  // ---------- the tick ----------

  lemma {:induction false} AdvanceIds(l: seq<DeltaList.Entry>, ticks: nat)
    ensures multiset(DeltaList.Ids(l)) == multiset(DeltaList.Ids(DeltaList.Remaining(l, ticks))) + multiset(DeltaList.Expired(l, ticks))
  {
    if l != [] {
      var r, e := DeltaList.Remaining(l, ticks), DeltaList.Expired(l, ticks);
      if l[0].delta <= ticks {
        AdvanceIds(l[1..], ticks - l[0].delta);
        assert r == DeltaList.Remaining(l[1..], ticks - l[0].delta) && e == [l[0].id] + DeltaList.Expired(l[1..], ticks - l[0].delta);
        hide *;
        DeltaList.IdsOfHead(l);
        assert multiset(e) == multiset{l[0].id} + multiset(DeltaList.Expired(l[1..], ticks - l[0].delta));
      } else {
        assert r[0].id == l[0].id && r[1..] == l[1..] && e == [];
        hide *;
        DeltaList.IdsOfHead(l);
        DeltaList.IdsOfHead(r);
      }
    }
  }

  /** Taking the due entries off the list leaves exactly them to be expired. */
  lemma TickTakes(k: State, ticks: nat)
    requires Delayed(k)
    ensures DelayedBut(k.(delay := DeltaList.Remaining(k.delay, ticks)), multiset(DeltaList.Expired(k.delay, ticks)))
  {
    AdvanceIds(k.delay, ticks);
    var k1 := k.(delay := DeltaList.Remaining(k.delay, ticks));
    forall t ensures Entries(k1, t) + multiset(DeltaList.Expired(k.delay, ticks))[t] == if Sleeping(T(k1, t)) then 1 else 0 {
      assert Entries(k, t) + multiset{}[t] == if Sleeping(T(k, t)) then 1 else 0;
      assert T(k1, t) == T(k, t);
    }
  }

  /** The next due task is a live sleeper. */
  lemma DueSleeps(k: State, due: seq<Task>)
    requires DelayedBut(k, multiset(due)) && due != []
    ensures Live(k, due[0]) && T(k, due[0]).state == Blocked
    ensures multiset(due) - multiset{due[0]} == multiset(due[1..])
  {
    assert due == [due[0]] + due[1..];
    assert Entries(k, due[0]) + multiset(due)[due[0]] == if Sleeping(T(k, due[0])) then 1 else 0;
  }
}
