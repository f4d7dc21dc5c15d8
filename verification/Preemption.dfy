/** No missed preemption on one core: every kernel operation keeps Scheduled, so whenever the running
    task no longer deserves the processor a context switch is pending, or is remembered by a locked
    scheduler for its unlock. */
module Preemption {
  import opened Sequences
  import opened Kernel
  import opened Links
  import opened Operations
  import opened Scheduling
  import DeltaList

  /** What a change of one control block may not touch without the scheduler noticing. */
  predicate SameToScheduler(r: Tcb, r': Tcb) { r'.state == r.state && r'.prio == r.prio && r'.base == r.base }

  lemma SetTcbAlike(k: State, t: Task, r: Tcb)
    requires Live(k, t) && SameToScheduler(T(k, t), r)
    ensures AlikeToScheduler(k, SetTcb(k, t, r))
  {
  }

  lemma SetTcbScheduled(k: State, t: Task, r: Tcb)
    requires Scheduled(k) && Live(k, t) && SameToScheduler(T(k, t), r)
    ensures Scheduled(SetTcb(k, t, r))
  {
    SetTcbAlike(k, t, r);
    hide Structured, NoMissed;
    AlikeKeeps(k, SetTcb(k, t, r), {});
  }

  // ---------- unlink and resume ----------

  lemma LeaveStateListKeeps(k: State, t: Task)
    requires Scheduled(k) && Live(k, t)
    ensures Structured(LeaveStateList(k, t), {t}) && NoMissed(LeaveStateList(k, t))
    ensures T(k, t).state != Ready ==> Scheduled(LeaveStateList(k, t))
  {
    var k1 := LeaveStateList(k, t);
    if T(k, t).state == Ready {
      LeaveReadyBuckets(k, t);
      hide ReadyBut, LeaveReady;
      LeaveReadyQuiet(k, t);
    } else {
      hide Structured, NoMissed;
      assert AlikeToScheduler(k, k1);
      AlikeKeeps(k, k1, {});
      NotReadyStructured(k1, t);
    }
  }

  lemma LeaveReadyQuiet(k: State, t: Task)
    requires NoMissed(k) && Bounded(k) && CurrentOk(k) && LeaveReady(k, t).bitmap <= k.bitmap
    ensures NoMissed(LeaveReady(k, t)) && Bounded(LeaveReady(k, t)) && CurrentOk(LeaveReady(k, t))
  {
    hide Without;
    assert forall x :: T(LeaveReady(k, t), x) == T(k, x);
  }

  lemma NotReadyStructured(k: State, t: Task)
    requires T(k, t).state != Ready
    ensures Structured(k, {}) <==> Structured(k, {t})
  {
    UnreadyEitherWay(k, t);
  }

  /** Leaving every list: buckets stay exact but for t, and whoever is lowered on the way leaves no
      missed switch behind. */
  lemma UnlinkKeeps(k: State, t: Task)
    requires Scheduled(k) && Linked(k) && Live(k, t)
    ensures Structured(Unlink(k, t), {t}) && NoMissed(Unlink(k, t))
    ensures SameToScheduler(T(k, t).(prio := T(Unlink(k, t), t).prio), T(Unlink(k, t), t))
  {
    EdgesHold(k, t);
    LeftIsAt(k, t);
    hide Linked, Unlink, LeaveStateList, PriorityRecompute, LeaveAndClear, Scheduled, EdgeConsistent, Structured, NoMissed;
    LeaveStateListKeeps(k, t);
    UnlinkInSteps(k, t);
    var k1 := LeaveStateList(k, t);
    if T(k, t).waitList.Some? {
      assert T(k, t).state == Blocked by { EdgesHold(k, t); BlockedIfQueued(T(k, t)); }
      var q := T(k, t).waitList.value;
      var k2 := LeaveAndClear(k1, q, t);
      assert T(k1, t) == T(k, t);
      LeaveAndClearScheduled(k1, q, t);
      RecomputeKeepsSchedule(k2, DebtOwner(k, t), MAX_DEPTH);
      assert Scheduled(Unlink(k, t));
      assert T(Unlink(k, t), t).state == Blocked;
      ScheduledMeans(Unlink(k, t));
      NotReadyStructured(Unlink(k, t), t);
    }
  }

  lemma ScheduledMeans(k: State)
    requires Scheduled(k)
    ensures Structured(k, {}) && NoMissed(k)
  {
  }

  lemma BlockedIfQueued(r: Tcb)
    requires EdgeConsistent(r) && r.waitList.Some?
    ensures r.state == Blocked
  {
  }

  lemma LeaveAndClearScheduled(k: State, q: WaitQ, t: Task)
    requires Scheduled(k) && Live(k, t)
    ensures Scheduled(LeaveAndClear(k, q, t))
  {
    hide Without, Structured, NoMissed;
    assert AlikeToScheduler(k, LeaveAndClear(k, q, t));
    AlikeKeeps(k, LeaveAndClear(k, q, t), {});
  }

  lemma ResumeKeeps(k: State, t: Task, r: Tcb)
    requires Structured(k, {t}) && NoMissed(k) && Live(k, t) && T(k, t).state != Running
    requires SameToScheduler(T(k, t), r)
    ensures Scheduled(Resume(k, t, r))
  {
    SetTcbAlike(k, t, r);
    var k1 := SetTcb(k, t, r);
    assert T(k1, t) == r;
    hide Structured, NoMissed, MakeReady, PreemptRequest, AlikeToScheduler;
    AlikeKeeps(k, k1, {t});
    ReadyAndRequest(k1, t);
  }

  /** Every wake: t leaves its lists, its control block is marked, and it becomes ready. */
  lemma UnlinkResumeKeeps(k: State, t: Task, s: bool, w: Option<WaitQ>)
    requires Scheduled(k) && Linked(k) && Live(k, t) && T(k, t).state != Running
    ensures Scheduled(Resume(Unlink(k, t), t, T(Unlink(k, t), t).(signaled := s, wokenFrom := w)))
  {
    UnlinkKeeps(k, t);
    LeftIsAt(k, t);
    hide Linked, Unlink, Resume, Structured, NoMissed;
    ResumeKeeps(Unlink(k, t), t, T(Unlink(k, t), t).(signaled := s, wokenFrom := w));
  }

  lemma WakeOneKeeps(k: State, q: WaitQ)
    requires Scheduled(k) && Linked(k)
    ensures Scheduled(WakeOne(k, q))
  {
    if WaitersOf(k, q) != [] {
      var t := WaitersOf(k, q)[0];
      HeadWaits(k, q);
      EdgesHold(k, t);
      hide Linked, Unlink, Scheduled;
      UnlinkResumeKeeps(k, t, true, Some(q));
    }
  }

  lemma WakeBlockedKeeps(k: State, t: Task)
    requires Scheduled(k) && Linked(k)
    ensures Scheduled(WakeBlocked(k, t))
  {
    if Live(k, t) && T(k, t).state == Blocked {
      LeftIsAt(k, t);
      LeftKeeps(T(k, t));
      hide Linked, Unlink, Scheduled, Left, EdgeConsistent;
      UnlinkResumeKeeps(k, t, true, T(k, t).wokenFrom);
      assert T(Unlink(k, t), t).(signaled := true, wokenFrom := T(k, t).wokenFrom) == T(Unlink(k, t), t).(signaled := true);
    }
  }

  lemma ExpireKeeps(k: State, t: Task)
    requires Scheduled(k) && Linked(k) && Live(k, t) && T(k, t).state != Running
    ensures Scheduled(ExpireWait(k, t))
  {
    LeftIsAt(k, t);
    LeftKeeps(T(k, t));
    hide Linked, Unlink, Scheduled, Left, EdgeConsistent, MakeReady, PreemptRequest;
    UnlinkResumeKeeps(k, t, T(k, t).signaled, T(k, t).wokenFrom);
    SetSame(Unlink(k, t), t);
  }

  lemma CompensateKeeps(k: State, t: Task)
    requires Scheduled(k) && Linked(k) && Live(k, t)
    ensures Scheduled(WakeCompensate(k, t))
  {
    SpendFrame(k, t);
    SetTcbScheduled(k, t, T(k, t).(wokenFrom := None));
    hide Linked, Scheduled, WakeOne, Becomes;
    if T(k, t).wokenFrom.Some? { WakeOneKeeps(Spend(k, t), T(k, t).wokenFrom.value); }
  }

  // ---------- the task API ----------

  /** The running task, started again, simply goes on running; one that had stopped runs again. */
  lemma RunAgainKeeps(k: State, t: Task, r: Tcb)
    requires Structured(k, {t}) && NoMissed(k) && Live(k, t) && k.current == Some(t)
    requires SameToScheduler(T(k, t).(state := Running), r)
    ensures Scheduled(SetTcb(k, t, r))
  {
    var k' := SetTcb(k, t, r);
    assert forall x :: x != t ==> T(k', x) == T(k, x);
    SameBuckets(k, k', {t});
    UnreadyEitherWay(k', t);
    hide ReadyBut;
  }

  lemma TaskStartKeeps(k: State, t: Task)
    requires Scheduled(k) && Linked(k) && Live(k, t)
    ensures Scheduled(TaskStart(k, t))
  {
    UnlinkKeeps(k, t);
    UnlinkCurrent(k, t);
    LeftIsAt(k, t);
    var k1 := Unlink(k, t);
    if k.current == Some(t) {
      var r := Started(T(k1, t), T(k, t).state == Blocked, true);
      hide Unlink, Linked, Scheduled, Structured, NoMissed, PreemptRequest, EdgeConsistent, TaskStart;
      SelfStartIs(k, t);
      RunAgainKeeps(k1, t, r);
      ScheduledMeans(SetTcb(k1, t, r));
      PreemptKeeps(SetTcb(k1, t, r), t, {});
      ScheduledIs(PreemptRequest(SetTcb(k1, t, r), t));
    } else {
      assert T(k, t).state != Running by { OnlyCurrentRuns(k, t); }
      hide Unlink, Linked, Scheduled, Structured, NoMissed, PreemptRequest, TaskStart, EdgeConsistent;
      StartIsResume(k, t);
      UnlinkResumeKeeps(k, t, T(k, t).signaled || T(k, t).state == Blocked, T(k, t).wokenFrom);
    }
  }

  lemma ScheduledIs(k: State)
    requires Structured(k, {}) && NoMissed(k)
    ensures Scheduled(k)
  {
  }

  lemma OnlyCurrentRuns(k: State, t: Task)
    requires Scheduled(k) && k.current != Some(t)
    ensures T(k, t).state != Running
  {
  }

  /** t, in no bucket, stops: any state but ready. If it was the running task a switch must follow. */
  lemma StopKeeps(k: State, t: Task, r: Tcb)
    requires Structured(k, {t}) && NoMissed(k) && Live(k, t)
    requires r.state !in {Ready, Running} && r.prio == T(k, t).prio && r.base == T(k, t).base
    requires k.current == Some(t) ==> k.lockCount == 0
    ensures Structured(SetTcb(k, t, r), {})
    ensures k.current != Some(t) ==> NoMissed(SetTcb(k, t, r))
  {
    var k' := SetTcb(k, t, r);
    assert forall x :: x != t ==> T(k', x) == T(k, x);
    SameBuckets(k, k', {t});
    UnreadyEitherWay(k', t);
    hide ReadyBut;
  }

  lemma MarkKeeps(k: State, t: Task)
    requires Scheduled(k) && Live(k, t)
    ensures Scheduled(Mark(k, t))
  {
    if T(k, t).state == Blocked { SetTcbScheduled(k, t, T(k, t).(signaled := true)); }
  }

  lemma TaskPauseKeeps(k: State, t: Task)
    requires Scheduled(k) && Linked(k) && Live(k, t)
    ensures Scheduled(TaskPause(k, t))
  {
    PauseInSteps(k, t);
    if !Refused(k, t) {
      CompensateKeeps(k, t);
      CompensateFrame(k, t);
      hide Linked, Scheduled, Structured, NoMissed, Becomes, Unlink, Park, WakeCompensate, SwitchRequest;
      var k1 := WakeCompensate(k, t);
      ParkKeeps(k1, t);
      RequestKeeps(Park(k1, t), {});
      ScheduledIs(if k.current == Some(t) then SwitchRequest(Park(k1, t)) else Park(k1, t));
    }
  }

  lemma ParkKeeps(k: State, t: Task)
    requires Scheduled(k) && Linked(k) && Live(k, t) && (k.current == Some(t) ==> k.lockCount == 0)
    ensures Structured(Park(k, t), {}) && (k.current != Some(t) ==> NoMissed(Park(k, t)))
  {
    var k1 := Mark(k, t);
    MarkKeeps(k, t);
    MarkFrame(k, t);
    hide Mark, Linked, Becomes, Scheduled, Unlink, Structured, NoMissed;
    UnlinkKeeps(k1, t);
    UnlinkCurrent(k1, t);
    UnlinkFrame(k1, t);
    LeftIsAt(k1, t);
    BecomesAt(k, k1, t, T(k1, t));
    BecomesAt(k1, Unlink(k1, t), t, Left(T(k1, t)));
    StopKeeps(Unlink(k1, t), t, T(Unlink(k1, t), t).(state := Suspended));
  }

  lemma ForgetKeeps(k: State, t: Task)
    requires Structured(k, {t}) && NoMissed(k) && Live(k, t) && (k.current == Some(t) ==> k.lockCount == 0)
    ensures Structured(Forget(k, t), {})
    ensures k.current != Some(t) ==> NoMissed(Forget(k, t))
  {
    var k' := Forget(k, t);
    assert forall x :: x != t ==> T(k', x) == T(k, x);
    SameBuckets(k, k', {t});
    UnreadyEitherWay(k', t);
    hide ReadyBut;
  }

  lemma TaskDeleteKeeps(k: State, t: Task)
    requires Scheduled(k) && Linked(k) && Live(k, t) && T(k, t).owned == []
    ensures Scheduled(TaskDelete(k, t))
  {
    DeleteInSteps(k, t);
    if !Refused(k, t) {
      CompensateKeeps(k, t);
      CompensateFrame(k, t);
      hide Linked, Scheduled, Structured, NoMissed, Becomes, Unlink, Forget, WakeCompensate, SwitchRequest;
      var k1 := WakeCompensate(k, t);
      UnlinkKeeps(k1, t);
      UnlinkFrame(k1, t);
      BecomesAt(k1, Unlink(k1, t), t, Left(T(k1, t)));
      ForgetKeeps(Unlink(k1, t), t);
      RequestKeeps(Forget(Unlink(k1, t), t), {});
      ScheduledIs(if k.current == Some(t) then SwitchRequest(Forget(Unlink(k1, t), t)) else Forget(Unlink(k1, t), t));
    }
  }

  lemma TaskCreateKeeps(k: State, t: Task, p: nat, system: bool)
    requires Scheduled(k) && !Live(k, t) && t != IDLE && Proper(p)
    ensures Scheduled(TaskCreate(k, t, p, system))
  {
    var k' := TaskCreate(k, t, p, system);
    assert forall x :: x != t ==> T(k', x) == T(k, x);
    UnreadyEitherWay(k, t);
    SameBuckets(k, k', {t});
    UnreadyEitherWay(k', t);
    hide ReadyBut;
  }

  lemma PrioritySetKeeps(k: State, t: Task, p: nat)
    requires Scheduled(k) && Live(k, t) && Proper(p)
    ensures Scheduled(PrioritySet(k, t, p))
  {
    if !T(k, t).system {
      var k1 := SetTcb(k, t, T(k, t).(base := p));
      assert forall x :: x != t ==> T(k1, x) == T(k, x);
      SameBuckets(k, k1, {});
      hide ReadyBut, PriorityRecompute;
      assert Structured(k1, {}) && NoMissed(k1);
      hide Structured, NoMissed;
      RecomputeKeepsSchedule(k1, t, MAX_DEPTH);
    }
  }

  // ---------- blocking ----------

  /** The running task stops in place; the switch request that follows makes that sound. */
  lemma BlockKeeps(k: State, c: Task, r: Tcb)
    requires Scheduled(k) && Live(k, c) && k.current == Some(c) && T(k, c).state == Running && k.lockCount == 0
    requires r.state == Blocked && r.prio == T(k, c).prio && r.base == T(k, c).base
    ensures Structured(SetTcb(k, c, r), {})
  {
    NotReadyStructured(k, c);
    StopKeeps(k, c, r);
  }

  /** Lists other than the ready buckets are none of the scheduler's business. */
  lemma OtherListsKeep(k: State, k': State, xs: set<Task>)
    requires k' == k.(waiters := k'.waiters, delay := k'.delay, mutexes := k'.mutexes, sems := k'.sems, queues := k'.queues)
    ensures AlikeToScheduler(k, k')
    ensures Structured(k, xs) ==> Structured(k', xs)
    ensures NoMissed(k) ==> NoMissed(k')
  {
    assert forall x :: T(k', x) == T(k, x);
    assert AlikeToScheduler(k, k');
    AlikeKeeps(k, k', xs);
  }

  lemma SleepKeeps(k: State, c: Task, w: Wait)
    requires Scheduled(k) && Live(k, c) && k.current == Some(c) && T(k, c).state == Running
    ensures Scheduled(Sleep(k, c, w))
  {
    if k.lockCount == 0 && (w.For? || w.Forever?) {
      var r := T(k, c).(state := Blocked, timed := w.For?);
      BlockKeeps(k, c, r);
      hide Structured, NoMissed, Scheduled, SwitchRequest;
      var k1 := SetTcb(k, c, r);
      var k2 := if w.For? then k1.(delay := DeltaList.Insert(k1.delay, c, w.ticks)) else k1;
      OtherListsKeep(k1, k2, {});
      RequestKeeps(k2, {});
      ScheduledIs(SwitchRequest(k2));
    }
  }

  lemma WaitBeginKeeps(k: State, c: Task, q: WaitQ, w: Wait)
    requires Scheduled(k) && Live(k, c) && k.current == Some(c) && T(k, c).state == Running && k.lockCount == 0
    ensures Scheduled(WaitBegin(k, c, q, w))
  {
    var k1 := Join(k, q, c);
    JoinIs(k, q, c);
    OtherListsKeep(k, k1, {});
    assert T(k1, c) == T(k, c);
    assert Scheduled(k1);
    var r := T(k1, c).(waitList := Some(q), signaled := false, wokenFrom := None,
                       timed := w.For?, state := Blocked, doing := Some(q));
    BlockKeeps(k1, c, r);
    hide Structured, NoMissed, Scheduled, SwitchRequest, Join;
    var k2 := SetTcb(k1, c, r);
    var k3 := if w.For? then k2.(delay := DeltaList.Insert(k2.delay, c, w.ticks)) else k2;
    OtherListsKeep(k2, k3, {});
    RequestKeeps(k3, {});
    ScheduledIs(SwitchRequest(k3));
  }

  lemma WaitEndKeeps(k: State, isr: bool)
    requires Scheduled(k)
    ensures Scheduled(WaitEnd(k, isr))
  {
    hide Scheduled;
    if !isr && k.current.Some? && Live(k, k.current.value) {
      SetTcbScheduled(k, k.current.value, Finished(T(k, k.current.value)));
    }
  }

  // ---------- the mutex layer ----------

  lemma OwnerLinkKeeps(k: State, c: Task, m: Mutex)
    requires Scheduled(k)
    ensures Scheduled(OwnerLink(k, c, m))
  {
    hide Scheduled, PriorityRecompute;
    if Live(k, c) {
      var r := T(k, c).(owned := T(k, c).owned + [m]);
      SetTcbScheduled(k, c, r);
      RecomputeKeepsSchedule(SetTcb(k, c, r), c, MAX_DEPTH);
    }
  }

  lemma OwnerUnlinkKeeps(k: State, o: Task, m: Mutex)
    requires Scheduled(k)
    ensures Scheduled(OwnerUnlink(k, o, m))
  {
    hide Scheduled, PriorityRecompute, Without;
    if Live(k, o) {
      var r := T(k, o).(owned := Without(T(k, o).owned, m));
      SetTcbScheduled(k, o, r);
      RecomputeKeepsSchedule(SetTcb(k, o, r), o, MAX_DEPTH);
    }
  }

  lemma InheritKeeps(k: State, c: Task, o: Task)
    requires Scheduled(k)
    ensures Scheduled(PriorityInherit(k, c, o))
  {
    if Live(k, c) && Live(k, o) {
      var k1 := SetTcb(k, c, T(k, c).(piOwner := o));
      SetTcbScheduled(k, c, T(k, c).(piOwner := o));
      assert Proper(T(k1, c).prio);
      hide Scheduled, PriorityRecompute, EffectivePrioritySet;
      if T(k1, c).prio > T(k1, o).prio {
        var k2 := EffectivePrioritySet(k1, o, T(k1, c).prio);
        PriorityKeepsSchedule(k1, o, T(k1, c).prio);
        if T(k2, o).blockedOn.Some? { RecomputeKeepsSchedule(k2, M(k2, T(k2, o).blockedOn.value).owner, MAX_DEPTH); }
      }
    }
  }

  lemma DepartKeeps(k: State, t: Task)
    requires Scheduled(k) && Live(k, t)
    ensures Scheduled(WaiterDepart(k, t))
  {
    hide Scheduled, PriorityRecompute;
    var r := T(k, t).(piOwner := 0, blockedOn := None, blockedForever := false);
    SetTcbScheduled(k, t, r);
    RecomputeKeepsSchedule(SetTcb(k, t, r), DebtOwner(k, t), MAX_DEPTH);
  }

  // ---------- locking the scheduler, and the switch itself ----------

  lemma KernelLockKeeps(k: State)
    requires Scheduled(k) && (k.current == Some(IDLE) || (k.current.Some? && T(k, k.current.value).state == Running))
    ensures Scheduled(KernelLock(k))
  {
    var k' := KernelLock(k);
    assert forall x :: T(k', x) == T(k, x);
    SameBuckets(k, k', {});
    hide ReadyBut;
  }

  /** The outermost unlock re-issues the switch requests the lock swallowed. */
  lemma KernelUnlockKeeps(k: State)
    requires Scheduled(k)
    ensures Scheduled(KernelUnlock(k))
  {
    var k' := KernelUnlock(k);
    hide KernelUnlock, Structured, Above;
    UnlockIs(k);
    FlagsKeep(k, k', {});
    assert Outranked(k') ==> Outranked(k);
  }

  lemma UnlockIs(k: State)
    ensures KernelUnlock(k) == k.(lockCount := if k.lockCount == 0 then 0 else k.lockCount - 1,
                                  switchPending := k.lockCount != 1 && k.switchPending,
                                  pendSv := k.pendSv || (k.lockCount == 1 && k.switchPending))
  {
  }

  // ---------- PendSV: save, then select ----------

  ghost predicate NobodyRuns(k: State) { forall t :: T(k, t).state != Running }

  /** The switch is deferred: the scheduler is locked around a running task. */
  predicate Deferred(k: State) {
    k.lockCount != 0 && k.current.Some? && (k.current.value == IDLE || T(k, k.current.value).state == Running)
  }

  /** What a preempted runner's return to its bucket leaves of every control block. */
  lemma SavedIs(k: State, c: Task, x: Task)
    ensures var k' := MakeReady(k, c); T(k', x) == (if x == c then T(k, c).(state := Ready) else T(k, x)) && k'.tcb.Keys == k.tcb.Keys + {c}
    ensures var k' := MakeReady(k, c); k' == k.(tcb := k'.tcb, ready := k'.ready, bitmap := k'.bitmap)
  {
  }

  lemma SavedDispatches(k: State, c: Task)
    requires Live(k, c) && T(k, c).state == Running
    ensures OnlyDispatch(k, MakeReady(k, c))
  {
    SavedIs(k, c, c);
    hide MakeReady, T;
    forall x ensures T(MakeReady(k, c), x) == if x == c then T(k, c).(state := Ready) else T(k, x) { SavedIs(k, c, x); }
    assert k.tcb.Keys + {c} == k.tcb.Keys;
  }

  lemma SavedStructured(k: State, c: Task)
    requires Structured(k, {}) && k.current == Some(c) && Live(k, c) && T(k, c).state == Running && k.lockCount == 0
    ensures Structured(MakeReady(k, c), {}) && NobodyRuns(MakeReady(k, c))
  {
    UnreadyEitherWay(k, c);
    MakeReadyBuckets(k, c);
    SavedIs(k, c, c);
    hide ReadyBut, MakeReady, T;
    forall x ensures T(MakeReady(k, c), x) == if x == c then T(k, c).(state := Ready) else T(k, x) { SavedIs(k, c, x); }
    assert k.tcb.Keys + {c} == k.tcb.Keys;
  }

  lemma SaveKeeps(k: State)
    requires Structured(k, {}) && !Deferred(k)
    ensures Structured(SaveCurrent(k), {}) && NobodyRuns(SaveCurrent(k)) && k.lockCount == 0
    ensures OnlyDispatch(k, SaveCurrent(k)) && SaveCurrent(k).current == k.current
  {
    if k.current.Some? && k.current.value != IDLE && T(k, k.current.value).state == Running {
      var c := k.current.value;
      hide ReadyBut, MakeReady, OnlyDispatch;
      SavedIs(k, c, c);
      SavedDispatches(k, c);
      SavedStructured(k, c);
    }
  }

  /** The head of bucket p runs. */
  function Dispatch(k: State, p: nat): State
    requires Bucket(k, p) != []
  {
    var t := Bucket(k, p)[0];
    var rest := Bucket(k, p)[1..];
    k.(tcb := k.tcb[t := T(k, t).(state := Running)], ready := k.ready[p := rest],
       bitmap := if rest == [] then k.bitmap - {p} else k.bitmap, current := Some(t))
  }

  lemma HeadIsReady(k: State, p: nat)
    requires ReadyBut(k, {}) && p in k.bitmap
    ensures Bucket(k, p) != []
    ensures var t := Bucket(k, p)[0]; Live(k, t) && T(k, t).state == Ready && T(k, t).prio == p
  {
    assert Queues(k, p, Bucket(k, p)[0]) > 0;
  }

  lemma DispatchBuckets(k: State, p: nat)
    requires ReadyBut(k, {}) && p in k.bitmap && Bucket(k, p) != []
    ensures ReadyBut(Dispatch(k, p), {}) && Dispatch(k, p).bitmap <= k.bitmap
  {
    HeadIsReady(k, p);
    var t := Bucket(k, p)[0];
    var k1 := LeaveReady(k, t);
    LeaveReadyBuckets(k, t);
    var k' := Dispatch(k, p);
    assert Without(Bucket(k, p), t) == Bucket(k, p)[1..];
    assert k'.ready == k1.ready && k'.bitmap == k1.bitmap;
    hide LeaveReady, Without;
    assert forall x :: x != t ==> T(k', x) == T(k1, x);
    SameBuckets(k1, k', {t});
    UnreadyEitherWay(k', t);
  }

  /** When p is the highest set bit, nobody left behind outranks the task that comes out. */
  lemma DispatchKeeps(k: State, p: nat)
    requires Structured(k, {}) && NobodyRuns(k) && k.lockCount == 0 && p in k.bitmap
    requires forall b :: b in k.bitmap ==> b <= p
    ensures Bucket(k, p) != [] && T(k, Bucket(k, p)[0]).prio == p
    ensures Structured(Dispatch(k, p), {}) && !Outranked(Dispatch(k, p)) && OnlyDispatch(k, Dispatch(k, p))
  {
    HeadIsReady(k, p);
    DispatchBuckets(k, p);
    hide ReadyBut;
    var t := Bucket(k, p)[0];
    var k' := Dispatch(k, p);
    assert T(k', t) == T(k, t).(state := Running);
    assert forall x :: x != t ==> T(k', x) == T(k, x);
    assert k'.current == Some(t) && k'.tcb.Keys == k.tcb.Keys && k'.lockCount == 0;
    assert OnlyDispatch(k, k');
    hide Dispatch, OnlyDispatch;
    assert Bounded(k') && CurrentOk(k');
  }

  /** Every bit is the priority of a task, so the idle priority's is never set. */
  lemma BitsBounded(k: State)
    requires Structured(k, {})
    ensures (forall b :: b in k.bitmap ==> b <= PRIO_MAX) && 0 !in k.bitmap
  {
    forall b | b in k.bitmap ensures Proper(b) {
      assert Queues(k, b, Bucket(k, b)[0]) > 0;
      assert Live(k, Bucket(k, b)[0]);
    }
  }

  lemma SelectKeeps(k: State)
    requires Structured(k, {}) && NobodyRuns(k) && k.lockCount == 0
    ensures Structured(SelectNext(k), {}) && !Outranked(SelectNext(k)) && OnlyDispatch(k, SelectNext(k))
  {
    if k.bitmap == {} {
      var k' := k.(current := Some(IDLE));
      assert forall x :: T(k', x) == T(k, x);
      SameBuckets(k, k', {});
    } else {
      BitsBounded(k);
      var p := HighestBit(k.bitmap, PRIO_MAX);
      assert exists b :: b in k.bitmap && b <= PRIO_MAX;
      hide Structured, Outranked, OnlyDispatch, HighestBit;
      DispatchKeeps(k, p);
    }
  }

  lemma ClearPending(k: State)
    requires Scheduled(k)
    ensures Structured(k.(pendSv := false), {})
  {
    hide Structured;
    FlagsKeep(k, k.(pendSv := false), {});
  }

  /** PendSV: the invariant holds again, blocked tasks are untouched, and unless the scheduler is locked
      the task that comes out has the highest priority of all that are ready. */
  lemma PendSvKeeps(k: State)
    requires Scheduled(k)
    ensures Scheduled(PendSv(k)) && OnlyDispatch(k, PendSv(k))
    ensures !Deferred(k) ==> !Outranked(PendSv(k))
    ensures Deferred(k) ==> PendSv(k).current == k.current && PendSv(k).switchPending
  {
    var k1 := k.(pendSv := false);
    ClearPending(k);
    assert Deferred(k1) == Deferred(k);
    hide Structured, Outranked, OnlyDispatch;
    if Deferred(k) {
      var k2 := k1.(switchPending := true);
      assert PendSv(k) == k2;
      FlagsKeep(k1, k2, {});
      OnlyFlagsDispatch(k, k2);
    } else {
      SaveKeeps(k1);
      SelectKeeps(SaveCurrent(k1));
      OnlyFlagsDispatch(k, k1);
      DispatchTwice(k, k1, SaveCurrent(k1));
      DispatchTwice(k, SaveCurrent(k1), PendSv(k));
    }
  }

  lemma OnlyFlagsDispatch(k: State, k': State)
    requires k' == k.(pendSv := k'.pendSv, switchPending := k'.switchPending)
    ensures OnlyDispatch(k, k')
  {
  }

  lemma DispatchTwice(a: State, b: State, c: State)
    requires OnlyDispatch(a, b) && OnlyDispatch(b, c)
    ensures OnlyDispatch(a, c)
  {
    forall x ensures T(c, x) == T(a, x).(state := T(c, x).state) {
      assert T(b, x) == T(a, x).(state := T(b, x).state) && T(c, x) == T(b, x).(state := T(c, x).state);
    }
    forall x | T(c, x).state != T(a, x).state ensures T(a, x).state in {Ready, Running} && T(c, x).state in {Ready, Running} {
      assert T(b, x).state != T(a, x).state || T(c, x).state != T(b, x).state;
    }
  }
}
