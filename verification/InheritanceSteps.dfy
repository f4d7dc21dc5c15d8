/** Priority inheritance, operation by operation: after each, every task again runs at the maximum of
    its base priority and of everyone waiting on a mutex it owns. The condition is the source's own:
    wait chains are acyclic and name at most MAX_DEPTH tasks. */
module InheritanceSteps {
  import opened Sequences
  import opened Kernel
  import opened Links
  import opened Operations
  import opened Inheritance
  import DeltaList

  // ---------- steps inheritance does not see ----------

  /** A control block as inheritance reads it. */
  predicate SameToInheritance(r: Tcb, r': Tcb) { r'.prio == r.prio && r'.base == r.base && r'.owned == r.owned }

  lemma SetTcbSettled(k: State, t: Task, r: Tcb, xs: set<Task>)
    requires SettledBut(k, xs) && Live(k, t) && SameToInheritance(T(k, t), r)
    ensures SettledBut(SetTcb(k, t, r), xs)
  {
    AlikeSettled(k, SetTcb(k, t, r), xs);
  }

  /** Only mutex waiter lists matter. */
  lemma SameMutexLists(k: State, k': State, xs: set<Task>)
    requires k'.tcb.Keys == k.tcb.Keys && SettledBut(k, xs)
    requires forall m :: WaitersOf(k', OfMutex(m)) == WaitersOf(k, OfMutex(m))
    requires forall t :: SameToInheritance(T(k, t), T(k', t))
    ensures SettledBut(k', xs)
  {
    forall m ensures HeadPrio(k', m) == HeadPrio(k, m) {
      assert WaitersOf(k', OfMutex(m)) == WaitersOf(k, OfMutex(m));
    }
    forall t | t in k'.tcb && t !in xs ensures T(k', t).prio == Effective(k', t) {
      assert SameToInheritance(T(k, t), T(k', t));
      OwedSame(k, k', t);
    }
  }

  lemma ResumeSettled(k: State, t: Task, r: Tcb)
    requires Settled(k) && Live(k, t) && SameToInheritance(T(k, t), r)
    ensures Settled(Resume(k, t, r))
  {
    hide SettledBut;
    SetTcbSettled(k, t, r, {});
    var k1 := SetTcb(k, t, r);
    assert Alike(k1, MakeReady(k1, t));
    RequestFrame(MakeReady(k1, t), t);
    assert Alike(k1, Resume(k, t, r)) by { hide MakeReady, PreemptRequest; }
    hide Alike, Resume;
    AlikeSettled(k1, Resume(k, t, r), {});
  }

  // ---------- edges ----------

  /** A rewritten control block that lost its wait edge or kept it. */
  lemma BecomesShrinks(k: State, k': State, t: Task, r: Tcb)
    requires Becomes(k, k', t, r) && (r.blockedOn.None? || r.blockedOn == T(k, t).blockedOn)
    ensures EdgesShrink(k, k')
  {
    forall x ensures T(k', x).blockedOn.None? || (T(k', x).blockedOn == T(k, x).blockedOn && NextTask(k', x) == NextTask(k, x)) {
      assert T(k', x) == (if x == t then r else T(k, x)).(prio := T(k', x).prio);
    }
  }

  // ---------- waking ----------

  lemma UnlinkResumeSettled(k: State, t: Task, s: bool, w: Option<WaitQ>)
    requires Linked(k) && Settled(k) && Live(k, t) && ChainsShort(k)
    ensures Settled(Resume(Unlink(k, t), t, T(Unlink(k, t), t).(signaled := s, wokenFrom := w)))
  {
    UnlinkSettles(k, t);
    LeftIsAt(k, t);
    hide Linked, Unlink, Resume, Settled;
    ResumeSettled(Unlink(k, t), t, T(Unlink(k, t), t).(signaled := s, wokenFrom := w));
  }

  lemma WakeOneSettled(k: State, q: WaitQ)
    requires Linked(k) && Settled(k) && ChainsShort(k)
    ensures Settled(WakeOne(k, q)) && ChainsShort(WakeOne(k, q))
  {
    if WaitersOf(k, q) != [] {
      var t := WaitersOf(k, q)[0];
      HeadWaits(k, q);
      EdgesHold(k, t);
      hide Linked, Unlink, Settled, ChainsShort, Becomes;
      UnlinkResumeSettled(k, t, true, Some(q));
      WakeOneFrame(k, q);
      BecomesShrinks(k, WakeOne(k, q), t, Signaled(T(k, t), q));
      ShortStaysShort(k, WakeOne(k, q));
    }
  }

  lemma WakeBlockedSettled(k: State, t: Task)
    requires Linked(k) && Settled(k) && ChainsShort(k)
    ensures Settled(WakeBlocked(k, t))
  {
    if Live(k, t) && T(k, t).state == Blocked {
      LeftIsAt(k, t);
      LeftKeeps(T(k, t));
      hide Linked, Unlink, Settled, Left, EdgeConsistent, ChainsShort;
      UnlinkResumeSettled(k, t, true, T(k, t).wokenFrom);
      assert T(Unlink(k, t), t).(signaled := true, wokenFrom := T(k, t).wokenFrom) == T(Unlink(k, t), t).(signaled := true);
    }
  }

  lemma ExpireSettled(k: State, t: Task)
    requires Linked(k) && Settled(k) && Live(k, t) && ChainsShort(k)
    ensures Settled(ExpireWait(k, t)) && ChainsShort(ExpireWait(k, t))
  {
    ExpireWaitFrame(k, t);
    LeftIsAt(k, t);
    LeftKeeps(T(k, t));
    EdgesHold(k, t);
    hide Linked, Unlink, Settled, EdgeConsistent, MakeReady, PreemptRequest, ChainsShort, Becomes;
    UnlinkResumeSettled(k, t, T(k, t).signaled, T(k, t).wokenFrom);
    SetSame(Unlink(k, t), t);
    BecomesShrinks(k, ExpireWait(k, t), t, Left(T(k, t)).(state := Ready));
    ShortStaysShort(k, ExpireWait(k, t));
  }

  lemma CompensateSettled(k: State, t: Task)
    requires Linked(k) && Settled(k) && Live(k, t) && ChainsShort(k)
    ensures Settled(WakeCompensate(k, t)) && ChainsShort(WakeCompensate(k, t))
  {
    hide Linked, Settled, SettledBut, ChainsShort, WakeOne, Becomes;
    if T(k, t).state == Ready && T(k, t).signaled && T(k, t).wokenFrom.Some? {
      SpendFrame(k, t);
      SettledIs(k);
      SetTcbSettled(k, t, T(k, t).(wokenFrom := None), {});
      SettledIs(Spend(k, t));
      BecomesShrinks(k, Spend(k, t), t, T(k, t).(wokenFrom := None));
      ShortStaysShort(k, Spend(k, t));
      WakeOneSettled(Spend(k, t), T(k, t).wokenFrom.value);
    }
  }

  lemma SettledIs(k: State)
    ensures Settled(k) <==> SettledBut(k, {})
  {
  }

  // ---------- the task API ----------

  lemma StartSettled(k: State, t: Task)
    requires Linked(k) && Settled(k) && Live(k, t) && ChainsShort(k)
    ensures Settled(TaskStart(k, t))
  {
    UnlinkSettles(k, t);
    UnlinkCurrent(k, t);
    LeftIsAt(k, t);
    hide Linked, Unlink, ChainsShort, EdgeConsistent, Left;
    if k.current == Some(t) {
      var r := Started(T(Unlink(k, t), t), T(k, t).state == Blocked, true);
      SelfStartIs(k, t);
      hide TaskStart, SettledBut;
      SetTcbSettled(Unlink(k, t), t, r, {});
      RequestFrame(SetTcb(Unlink(k, t), t, r), t);
      hide PreemptRequest;
      AlikeSettled(SetTcb(Unlink(k, t), t, r), PreemptRequest(SetTcb(Unlink(k, t), t, r), t), {});
    } else {
      StartIsResume(k, t);
      hide TaskStart, Resume;
      UnlinkResumeSettled(k, t, T(k, t).signaled || T(k, t).state == Blocked, T(k, t).wokenFrom);
    }
  }

  lemma MarkSettled(k: State, t: Task)
    requires Linked(k) && Settled(k) && Live(k, t) && ChainsShort(k)
    ensures Settled(Mark(k, t)) && ChainsShort(Mark(k, t))
  {
    MarkFrame(k, t);
    hide Linked, Becomes, ChainsShort, SettledBut;
    if T(k, t).state == Blocked { SetTcbSettled(k, t, T(k, t).(signaled := true), {}); }
    BecomesShrinks(k, Mark(k, t), t, T(Mark(k, t), t));
    ShortStaysShort(k, Mark(k, t));
  }

  lemma ParkSettled(k: State, t: Task)
    requires Linked(k) && Settled(k) && Live(k, t) && ChainsShort(k)
    ensures Settled(Park(k, t))
  {
    var k1 := Mark(k, t);
    MarkFrame(k, t);
    LeftIsAt(k1, t);
    hide Linked, Becomes, Unlink, ChainsShort, EdgeConsistent, Mark, SettledBut;
    MarkSettled(k, t);
    UnlinkSettles(k1, t);
    SetTcbSettled(Unlink(k1, t), t, T(Unlink(k1, t), t).(state := Suspended), {});
  }

  lemma PauseSettled(k: State, t: Task)
    requires Linked(k) && Settled(k) && Live(k, t) && ChainsShort(k)
    ensures Settled(TaskPause(k, t))
  {
    PauseInSteps(k, t);
    CompensateFrame(k, t);
    hide Linked, Settled, ChainsShort, TaskPause, WakeCompensate, Park, SwitchRequest;
    if !Refused(k, t) {
      CompensateSettled(k, t);
      var k1 := Park(WakeCompensate(k, t), t);
      ParkSettled(WakeCompensate(k, t), t);
      RequestSettled(k1);
    }
  }

  lemma RequestSettled(k: State)
    requires Settled(k)
    ensures Settled(SwitchRequest(k))
  {
    hide SettledBut;
    AlikeSettled(k, SwitchRequest(k), {});
  }

  lemma ForgetSettled(k: State, t: Task)
    requires Linked(k) && Settled(k) && Live(k, t) && T(k, t).waitList.None?
    ensures Settled(Forget(k, t))
  {
    var k' := Forget(k, t);
    assert forall q :: t !in WaitersOf(k, q) by { forall q ensures t !in WaitersOf(k, q) { WaitsIsQueued(k, q, t); } }
    hide Linked;
    forall m ensures HeadPrio(k', m) == HeadPrio(k, m) {
      assert WaitersOf(k', OfMutex(m)) == WaitersOf(k, OfMutex(m));
      assert t !in WaitersOf(k, OfMutex(m));
    }
    forall x | x in k'.tcb ensures T(k', x).prio == Effective(k', x) {
      assert x in k.tcb;
      OwedSame(k, k', x);
    }
  }

  lemma DeleteSettled(k: State, t: Task)
    requires Linked(k) && Settled(k) && Live(k, t) && ChainsShort(k) && T(k, t).owned == []
    ensures Settled(TaskDelete(k, t))
  {
    DeleteInSteps(k, t);
    CompensateFrame(k, t);
    var k1 := WakeCompensate(k, t);
    LeftIsAt(k1, t);
    LeftKeeps(T(k1, t));
    UnlinkFrame(k1, t);
    hide Linked, Settled, ChainsShort, TaskDelete, WakeCompensate, Unlink, Forget, Left, Becomes, SwitchRequest;
    if !Refused(k, t) {
      CompensateSettled(k, t);
      UnlinkSettles(k1, t);
      ForgetSettled(Unlink(k1, t), t);
      RequestSettled(Forget(Unlink(k1, t), t));
    }
  }

  lemma CreateSettled(k: State, t: Task, p: nat, system: bool)
    requires Linked(k) && Settled(k) && !Live(k, t) && t != IDLE
    ensures Settled(TaskCreate(k, t, p, system))
  {
    var k' := TaskCreate(k, t, p, system);
    assert forall q :: t !in WaitersOf(k, q) by { forall q ensures t !in WaitersOf(k, q) { WaitsIsQueued(k, q, t); } }
    hide Linked;
    forall m ensures HeadPrio(k', m) == HeadPrio(k, m) {
      assert WaitersOf(k', OfMutex(m)) == WaitersOf(k, OfMutex(m));
      assert t !in WaitersOf(k, OfMutex(m));
    }
    forall x | x in k'.tcb ensures T(k', x).prio == Effective(k', x) {
      if x != t { assert x in k.tcb; OwedSame(k, k', x); }
    }
  }

  lemma RebasedUnsettles(k: State, t: Task, p: nat)
    requires Settled(k) && Live(k, t)
    ensures SettledBut(SetTcb(k, t, T(k, t).(base := p)), {t})
  {
    var k1 := SetTcb(k, t, T(k, t).(base := p));
    forall m ensures HeadPrio(k1, m) == HeadPrio(k, m) { assert WaitersOf(k1, OfMutex(m)) == WaitersOf(k, OfMutex(m)); }
    forall x | x in k1.tcb && x != t ensures T(k1, x).prio == Effective(k1, x) { OwedSame(k, k1, x); }
  }

  /** A new base priority takes effect at once, here and for everyone this task waits behind. */
  lemma PrioritySetSettled(k: State, t: Task, p: nat)
    requires Linked(k) && Settled(k) && Live(k, t) && ChainsShort(k)
    ensures Settled(PrioritySet(k, t, p))
  {
    if !T(k, t).system {
      EdgesHold(k, t);
      assert ChainEnds(k, t, MAX_DEPTH);
      hide Linked, Becomes, ChainEnds, PriorityRecompute, ChainsShort, SettledBut;
      var r := T(k, t).(base := p);
      var k1 := SetTcb(k, t, r);
      LocalFrame(k, t, r);
      BecomesShrinks(k, k1, t, r);
      ChainsShrink(k, k1, t, MAX_DEPTH);
      RebasedUnsettles(k, t, p);
      RecomputeSettles(k1, t);
    }
  }

  // ---------- waiting on anything but a mutex, and leaving a wait ----------

  lemma PlainWaitSettled(k: State, c: Task, q: WaitQ, w: Wait)
    requires Settled(k) && Live(k, c) && !q.OfMutex?
    ensures Settled(WaitBegin(k, c, q, w))
  {
    WaitBeginIsEnqueue(k, c, q, w);
    hide WaitBegin, Ranked;
    var k1 := Enqueue(k, c, q, w);
    SameMutexLists(k, k1, {});
    hide Enqueue, SettledBut;
    AlikeSettled(k1, WaitBegin(k, c, q, w), {});
  }

  lemma WaitEndSettled(k: State, isr: bool)
    requires Settled(k)
    ensures Settled(WaitEnd(k, isr))
  {
    if !isr && k.current.Some? && Live(k, k.current.value) {
      hide SettledBut;
      SetTcbSettled(k, k.current.value, Finished(T(k, k.current.value)), {});
    }
  }

  lemma SleepSettled(k: State, c: Task, w: Wait)
    requires Settled(k) && Live(k, c)
    ensures Settled(Sleep(k, c, w))
  {
    hide SettledBut;
    AlikeSettled(k, Sleep(k, c, w), {});
  }

  lemma DepartSettled(k: State, t: Task)
    requires Linked(k) && Settled(k) && Live(k, t) && ChainsShort(k) && T(k, t).waitList.None?
    ensures Settled(WaiterDepart(k, t))
  {
    EdgesHold(k, t);
    var k1 := SetTcb(k, t, Released(T(k, t)));
    var o := DebtOwner(k, t);
    LocalFrame(k, t, Released(T(k, t)));
    assert WaiterDepart(k, t) == if o != 0 then PriorityRecompute(k1, o, MAX_DEPTH) else k1;
    hide Linked, Becomes, WaiterDepart, ChainEnds, PriorityRecompute;
    BecomesShrinks(k, k1, t, Released(T(k, t)));
    ChainsShrink(k, k1, o, MAX_DEPTH);
    SetTcbSettled(k, t, Released(T(k, t)), {});
    assert SettledBut(k1, {o});
    if o != 0 { RecomputeSettles(k1, o); }
  }

  // ---------- acquiring and releasing ----------

  lemma RunnableEndsAtOnce(k: State, t: Task)
    requires T(k, t).blockedOn.None?
    ensures ChainEnds(k, t, MAX_DEPTH)
  {
  }

  /** The new owner takes on the boost of those still queued - a mutex can change hands without waking
      every waiter. */
  lemma AcquireSettled(k: State, c: Task, m: Mutex)
    requires Linked(k) && Settled(k) && Live(k, c) && T(k, c).waitList.None? && !M(k, m).locked
    ensures Settled(OwnerLink(WithMutex(k, m, MutexObj(true, c)), c, m))
  {
    EdgesHold(k, c);
    var k1 := Acquired(k, c, m);
    AcquiredLinked(k, c, m);
    hide Linked, Becomes, PriorityRecompute;
    assert OwnerLink(WithMutex(k, m, MutexObj(true, c)), c, m)
        == if WaitersOf(k1, OfMutex(m)) != [] then PriorityRecompute(k1, c, MAX_DEPTH) else k1;
    forall n ensures HeadPrio(k1, n) == HeadPrio(k, n) { assert WaitersOf(k1, OfMutex(n)) == WaitersOf(k, OfMutex(n)); }
    forall x | x in k1.tcb && x != c ensures T(k1, x).prio == Effective(k1, x) { OwedSame(k, k1, x); }
    if WaitersOf(k1, OfMutex(m)) != [] {
      RunnableEndsAtOnce(k1, c);
      hide ChainEnds;
      RecomputeSettles(k1, c);
    } else {
      MaxHeadSame(k, k1, T(k, c).owned, T(k, c).base);
      MaxHeadSnoc(k1, T(k, c).owned, m, T(k, c).base);
    }
  }

  /** A mutex nobody waits for adds nothing. */
  lemma {:induction false} MaxHeadSnoc(k: State, ms: seq<Mutex>, m: Mutex, acc: nat)
    requires HeadPrio(k, m) == 0
    ensures MaxHead(k, ms + [m], acc) == MaxHead(k, ms, acc)
  {
    if ms != [] {
      assert (ms + [m])[1..] == ms[1..] + [m];
      MaxHeadSnoc(k, ms[1..], m, if HeadPrio(k, ms[0]) > acc then HeadPrio(k, ms[0]) else acc);
    }
  }

  lemma {:induction false} MaxHeadWithout(k: State, ms: seq<Mutex>, m: Mutex, acc: nat)
    requires HeadPrio(k, m) == 0
    ensures MaxHead(k, Without(ms, m), acc) == MaxHead(k, ms, acc)
  {
    if ms != [] && ms[0] != m {
      assert Without(ms, m)[1..] == Without(ms[1..], m);
      MaxHeadWithout(k, ms[1..], m, if HeadPrio(k, ms[0]) > acc then HeadPrio(k, ms[0]) else acc);
    }
  }

  lemma ReleaseShrinks(k: State, c: Task, m: Mutex)
    requires Linked(k) && Live(k, c) && M(k, m).locked && M(k, m).owner == c
    ensures EdgesShrink(k, OwnerUnlink(WithMutex(k, m, MutexObj(false, 0)), c, m))
  {
    OwnerUnlinkFrame(k, c, m);
    assert IDLE !in k.tcb;
    hide Linked, Becomes, OwnerUnlink, OnlyPriorities, Unowned, Without;
    var k' := OwnerUnlink(WithMutex(k, m, MutexObj(false, 0)), c, m);
    MutexRewrites(k, k', m, MutexObj(false, 0), c, T(k, c).(owned := Without(T(k, c).owned, m)));
    forall x ensures T(k', x).blockedOn == T(k, x).blockedOn {
      assert T(k', x) == (if x == c then T(k, c).(owned := Without(T(k, c).owned, m)) else T(k, x)).(prio := T(k', x).prio);
    }
  }

  /** Dropping a mutex drops exactly the boost it carried. */
  lemma ReleaseSettled(k: State, c: Task, m: Mutex)
    requires Linked(k) && Settled(k) && Live(k, c) && T(k, c).waitList.None? && M(k, m).locked && M(k, m).owner == c
    ensures Settled(OwnerUnlink(WithMutex(k, m, MutexObj(false, 0)), c, m))
  {
    EdgesHold(k, c);
    var k1 := Unowned(k, c, m);
    UnownedLinked(k, c, m);
    hide Linked, Becomes, PriorityRecompute, Without;
    assert OwnerUnlink(WithMutex(k, m, MutexObj(false, 0)), c, m)
        == if WaitersOf(k1, OfMutex(m)) != [] then PriorityRecompute(k1, c, MAX_DEPTH) else k1;
    forall n ensures HeadPrio(k1, n) == HeadPrio(k, n) { assert WaitersOf(k1, OfMutex(n)) == WaitersOf(k, OfMutex(n)); }
    forall x | x in k1.tcb && x != c ensures T(k1, x).prio == Effective(k1, x) { OwedSame(k, k1, x); }
    if WaitersOf(k1, OfMutex(m)) != [] {
      RunnableEndsAtOnce(k1, c);
      hide ChainEnds;
      RecomputeSettles(k1, c);
    } else {
      MaxHeadSame(k, k1, T(k, c).owned, T(k, c).base);
      MaxHeadWithout(k1, T(k, c).owned, m, T(k, c).base);
    }
  }

  lemma UnlockSettled(k: State, c: Task, m: Mutex)
    requires Linked(k) && Settled(k) && Live(k, c) && c != IDLE && T(k, c).waitList.None? && ChainsShort(k)
    ensures Settled(MutexUnlock(k, c, m).0)
  {
    LockedOwned(k, m);
    hide Linked, SettledBut, ChainsShort, OwnerUnlink, WakeOne, Becomes, OnlyPriorities;
    if M(k, m).locked && M(k, m).owner == c {
      var k1 := OwnerUnlink(WithMutex(k, m, MutexObj(false, 0)), c, m);
      ReleaseSettled(k, c, m);
      ReleaseShrinks(k, c, m);
      ShortStaysShort(k, k1);
      OwnerUnlinkFrame(k, c, m);
      WakeOneSettled(k1, OfMutex(m));
    }
  }

  // ---------- waiting for a mutex ----------

  /** Along a chain that ends, the tail after j links ends sooner. */
  lemma {:induction false} ChainTail(k: State, t: Task, x: Task, j: nat, n: nat) returns (i: nat)
    requires ChainEnds(k, t, n) && OnChain(k, t, x, j)
    ensures i < n && ChainEnds(k, x, n - i) && (i == 0 ==> t == x)
    decreases j
  {
    if t == x {
      i := 0;
    } else {
      var rest := ChainTail(k, NextTask(k, t), x, j - 1, n - 1);
      i := rest + 1;
    }
  }

  /** A chain that ends never comes back to where it started. */
  lemma {:induction false} EndingChainsDoNotLoop(k: State, t: Task, j: nat, n: nat)
    requires ChainEnds(k, t, n) && Live(k, t) && T(k, t).blockedOn.Some?
    ensures !OnChain(k, NextTask(k, t), t, j)
    decreases n
  {
    if OnChain(k, NextTask(k, t), t, j) {
      var i := ChainTail(k, NextTask(k, t), t, j, n - 1);
      EndingChainsDoNotLoop(k, t, j, n - 1 - i);
    }
  }

  /** Boosting the owner directly unsettles the owner and whoever it waits behind, nobody else. */
  lemma DirectBoost(k: State, o: Task, p: nat)
    requires Linked(k) && Settled(k) && Live(k, o)
    ensures SettledBut(EffectivePrioritySet(k, o, p), {o} + {NextTask(k, o)})
    ensures NextTask(k, o) != o ==> Effective(EffectivePrioritySet(k, o, p), o) == T(k, o).prio
    ensures T(EffectivePrioritySet(k, o, p), o).prio == p
  {
    assert WaitersLinked(k);
    hide EffectivePrioritySet, Effective, Linked, OnlyPriorities;
    var k1 := EffectivePrioritySet(k, o, p);
    PrioritySetFrame(k, o, p);
    forall x | x in k1.tcb && x !in {o} + {NextTask(k, o)} ensures T(k1, x).prio == Effective(k1, x) {
      PrioritySetOwed(k, o, p, x);
    }
    if NextTask(k, o) != o { PrioritySetOwed(k, o, p, o); }
  }

  /** What the boost leaves before the booster queues: everyone settled but the owner, which runs at the
      higher of the two priorities. */
  ghost predicate Boosted(k: State, k': State, c: Task, o: Task) {
    && SettledBut(k', {o}) && T(k', c).prio == T(k, c).prio
    && T(k', o).prio == (if T(k, c).prio > T(k, o).prio then T(k, c).prio else T(k, o).prio)
    && Effective(k', o) == T(k, o).prio
  }

  /** The owner is not among the tasks the boost walks through, since its chain ends. */
  lemma BoostWalk(k2: State, c: Task, o: Task, m: Mutex)
    requires Linked(k2) && Live(k2, c) && Live(k2, o) && c != o && T(k2, o).blockedOn == Some(m) && ChainsShort(k2)
    requires SettledBut(k2, {o} + {M(k2, m).owner})
    requires !OnChain(k2, M(k2, m).owner, c, MAX_DEPTH)
    ensures var k3 := PriorityRecompute(k2, M(k2, m).owner, MAX_DEPTH);
            && SettledBut(k3, {o}) && T(k3, c).prio == T(k2, c).prio
            && T(k3, o).prio == T(k2, o).prio && Effective(k3, o) == Effective(k2, o)
  {
    var next := M(k2, m).owner;
    assert ChainEnds(k2, o, MAX_DEPTH) && ChainEnds(k2, next, MAX_DEPTH);
    EndingChainsDoNotLoop(k2, o, MAX_DEPTH, MAX_DEPTH);
    assert IDLE !in k2.tcb;
    hide PriorityRecompute, Linked, ChainEnds, OnChain, Effective, StopsAt, ChainsShort;
    RecomputeElsewhere(k2, next, MAX_DEPTH, o);
    RecomputeElsewhere(k2, next, MAX_DEPTH, c);
    RecomputeMovesTheGap(k2, next, MAX_DEPTH, {o});
    RecomputeFrame(k2, next, MAX_DEPTH);
    OnlyPrioritiesEdges(k2, PriorityRecompute(k2, next, MAX_DEPTH));
    ShortChainsStopNowhere(k2, next, MAX_DEPTH);
  }

  lemma SettledAt(k: State, t: Task)
    requires Settled(k) && Live(k, t)
    ensures Effective(k, t) == T(k, t).prio
  {
  }

  lemma OnlyPrioritiesShort(k: State, k': State, t: Task, x: Task, n: nat)
    requires OnlyPriorities(k, k')
    ensures ChainsShort(k) ==> ChainsShort(k')
    ensures OnChain(k', t, x, n) == OnChain(k, t, x, n)
  {
    OnlyPrioritiesEdges(k, k');
    hide OnlyPriorities;
    WalksFollowEdges(k, k', t, x, n);
    if ChainsShort(k) {
      forall y ensures ChainEnds(k', y, MAX_DEPTH) {
        assert ChainEnds(k, y, MAX_DEPTH);
        WalksFollowEdges(k, k', y, x, MAX_DEPTH);
      }
    }
  }

  /** The boost from a state in which c already records whom it boosts. */
  lemma InheritIs(k: State, c: Task, o: Task)
    requires Live(k, c) && Live(k, o) && T(k, c).piOwner == o
    ensures PriorityInherit(k, c, o) ==
      if T(k, c).prio <= T(k, o).prio then k
      else
        var k2 := EffectivePrioritySet(k, o, T(k, c).prio);
        match T(k2, o).blockedOn case None => k2 case Some(m) => PriorityRecompute(k2, M(k2, m).owner, MAX_DEPTH)
  {
    SetSame(k, c);
    hide EffectivePrioritySet, PriorityRecompute;
  }

  lemma RaiseOwner(k: State, c: Task, o: Task)
    requires Linked(k) && Settled(k) && Live(k, c) && Live(k, o) && c != o && ChainsShort(k)
    requires !OnChain(k, o, c, MAX_DEPTH + 1) && T(k, c).prio > T(k, o).prio
    ensures var k2 := EffectivePrioritySet(k, o, T(k, c).prio);
            && Linked(k2) && ChainsShort(k2) && Live(k2, c) && Live(k2, o) && T(k2, c) == T(k, c)
            && T(k2, o).prio == T(k, c).prio && Effective(k2, o) == T(k, o).prio
            && SettledBut(k2, {o} + {NextTask(k2, o)})
            && (T(k2, o).blockedOn.Some? ==> !OnChain(k2, NextTask(k2, o), c, MAX_DEPTH))
  {
    assert WaitersLinked(k);
    NextIsElsewhere(k, c, o);
    var p := T(k, c).prio;
    hide Linked, OnlyPriorities, EffectivePrioritySet, ChainsShort, OnChain, SettledBut, Effective, WaitersLinked, Settled;
    var k2 := EffectivePrioritySet(k, o, p);
    PrioritySetLinked(k, o, p);
    DirectBoost(k, o, p);
    OnlyPrioritiesEdges(k, k2);
    OnlyPrioritiesShort(k, k2, NextTask(k, o), c, MAX_DEPTH);
    OnlyPrioritiesOther(k, k2, o, p, c);
    assert NextTask(k2, o) == NextTask(k, o);
  }

  lemma InheritFromDebt(k: State, c: Task, o: Task)
    requires Linked(k) && Settled(k) && Live(k, c) && Live(k, o) && c != o && ChainsShort(k) && T(k, c).piOwner == o
    requires !OnChain(k, o, c, MAX_DEPTH + 1)
    ensures Boosted(k, PriorityInherit(k, c, o), c, o)
  {
    SettledAt(k, o);
    assert WaitersLinked(k);
    InheritIs(k, c, o);
    hide Linked, PriorityRecompute, EffectivePrioritySet, ChainsShort, OnChain, SettledBut, Effective, PriorityInherit, Settled;
    if T(k, c).prio > T(k, o).prio {
      RaiseOwner(k, c, o);
      var k2 := EffectivePrioritySet(k, o, T(k, c).prio);
      if T(k2, o).blockedOn.Some? {
        BoostWalk(k2, c, o, T(k2, o).blockedOn.value);
      } else {
        NoIdle(k2);
        IdleIsNoTask(k2, o);
      }
    } else {
      NobodyElse(k, o);
    }
  }

  lemma NoIdle(k: State)
    requires Linked(k)
    ensures IDLE !in k.tcb
  {
  }

  lemma NobodyElse(k: State, o: Task)
    requires Settled(k)
    ensures SettledBut(k, {o})
  {
  }

  /** Recording a debt changes nothing inheritance reads. */
  lemma DebtRecorded(k: State, c: Task, r: Tcb, o: Task)
    requires Linked(k) && Settled(k) && Live(k, c) && ChainsShort(k) && !OnChain(k, o, c, MAX_DEPTH + 1)
    requires r.waitList == T(k, c).waitList && SameToInheritance(T(k, c), r) && EdgeConsistent(r) && r.blockedOn == T(k, c).blockedOn
    ensures var k1 := SetTcb(k, c, r); Linked(k1) && Settled(k1) && ChainsShort(k1) && !OnChain(k1, o, c, MAX_DEPTH + 1)
  {
    var k1 := SetTcb(k, c, r);
    assert forall y :: T(k1, y).blockedOn == T(k, y).blockedOn;
    hide Linked, Becomes, SettledBut, ChainsShort;
    LocalFrame(k, c, r);
    SetTcbSettled(k, c, r, {});
    BecomesShrinks(k, k1, c, r);
    ShortStaysShort(k, k1);
    WalksFollowEdges(k, k1, o, c, MAX_DEPTH + 1);
  }

  lemma SameBoost(k: State, k1: State, k': State, c: Task, o: Task)
    requires Boosted(k1, k', c, o) && T(k1, c).prio == T(k, c).prio && T(k1, o).prio == T(k, o).prio
    ensures Boosted(k, k', c, o)
  {
  }

  lemma InheritSettles(k: State, c: Task, o: Task)
    requires Linked(k) && Settled(k) && Live(k, c) && Live(k, o) && c != o && ChainsShort(k)
    requires EdgeOf(T(k, c).doing).Some? && T(k, c).waitList.None?
    requires !OnChain(k, o, c, MAX_DEPTH + 1)
    ensures Boosted(k, PriorityInherit(k, c, o), c, o)
  {
    EdgesHold(k, c);
    var r := T(k, c).(piOwner := o);
    var k1 := SetTcb(k, c, r);
    assert T(k1, c) == r && T(k1, o) == T(k, o);
    SetTwice(k, c, r, r);
    InheritOnce(k, c, o);
    hide Linked, Settled, ChainsShort, OnChain, Boosted, PriorityInherit;
    DebtRecorded(k, c, r, o);
    InheritFromDebt(k1, c, o);
    SameBoost(k, k1, PriorityInherit(k1, c, o), c, o);
  }

  lemma InheritOnce(k: State, c: Task, o: Task)
    requires Live(k, c)
    ensures Live(k, o) ==> PriorityInherit(SetTcb(k, c, T(k, c).(piOwner := o)), c, o) == PriorityInherit(k, c, o)
  {
    SetTwice(k, c, T(k, c).(piOwner := o), T(k, c).(piOwner := o));
    hide EffectivePrioritySet, PriorityRecompute;
  }

  lemma NextIsElsewhere(k: State, c: Task, o: Task)
    requires ChainsShort(k) && Live(k, o) && !OnChain(k, o, c, MAX_DEPTH + 1)
    requires IDLE !in k.tcb
    ensures NextTask(k, o) != o
    ensures T(k, o).blockedOn.Some? ==> !OnChain(k, NextTask(k, o), c, MAX_DEPTH)
  {
    assert ChainEnds(k, o, MAX_DEPTH);
    if T(k, o).blockedOn.Some? { EndingChainsDoNotLoop(k, o, 0, MAX_DEPTH); }
  }

  lemma OnlyPrioritiesOther(k: State, k': State, o: Task, p: nat, c: Task)
    requires WaitersLinked(k) && Live(k, o) && k' == EffectivePrioritySet(k, o, p) && c != o
    ensures T(k', c) == T(k, c)
  {
    PrioritySetFrame(k, o, p);
  }

  lemma IdleIsNoTask(k: State, o: Task)
    requires SettledBut(k, {o} + {IDLE}) && IDLE !in k.tcb
    ensures SettledBut(k, {o})
  {
  }

  /** The raised head of one owned mutex raises the running maximum by no more and no less. */
  lemma MaxHeadRaised(k: State, k': State, ms: seq<Mutex>, acc: nat, m: Mutex, p: nat)
    requires m in ms && HeadPrio(k', m) == (if p > HeadPrio(k, m) then p else HeadPrio(k, m))
    requires forall n :: n in ms && n != m ==> HeadPrio(k', n) == HeadPrio(k, n)
    ensures MaxHead(k', ms, acc) == if p > MaxHead(k, ms, acc) then p else MaxHead(k, ms, acc)
  {
    var a := MaxHead(k, ms, acc);
    var b := MaxHead(k', ms, acc);
    MaxHeadIsMax(k, ms, acc);
    MaxHeadIsMax(k', ms, acc);
    hide MaxHead;
    if a != acc {
      var n :| n in ms && a == HeadPrio(k, n);
      assert b >= HeadPrio(k', n) >= a;
    }
    if b != acc {
      var n :| n in ms && b == HeadPrio(k', n);
      assert a >= HeadPrio(k, n);
    }
  }

  lemma RankedHead(tcb: map<Task, Tcb>, ws: seq<Task>, t: Task)
    ensures Ranked(tcb, ws, t) != []
    ensures P(tcb, Ranked(tcb, ws, t)[0]) == if ws == [] || P(tcb, t) > P(tcb, ws[0]) then P(tcb, t) else P(tcb, ws[0])
  {
  }

  lemma JoinHeads(k: State, c: Task, m: Mutex, w: Wait)
    requires Live(k, c)
    ensures var k' := Enqueue(k, c, OfMutex(m), w);
            && HeadPrio(k', m) == (if T(k, c).prio > HeadPrio(k, m) then T(k, c).prio else HeadPrio(k, m))
            && (forall n :: n != m ==> HeadPrio(k', n) == HeadPrio(k, n))
  {
    var k' := Enqueue(k, c, OfMutex(m), w);
    RankedHead(k.tcb, WaitersOf(k, OfMutex(m)), c);
    assert forall x :: T(k', x).prio == T(k, x).prio;
    assert WaitersOf(k', OfMutex(m)) == Ranked(k.tcb, WaitersOf(k, OfMutex(m)), c);
    hide Ranked;
    forall n | n != m ensures HeadPrio(k', n) == HeadPrio(k, n) {
      assert WaitersOf(k', OfMutex(n)) == WaitersOf(k, OfMutex(n));
    }
  }

  /** Joining the queue completes what the boost began: the owner owes exactly what it already runs at. */
  lemma JoinSettles(k: State, c: Task, o: Task, m: Mutex, w: Wait)
    requires Live(k, c) && Live(k, o) && c != o && SettledBut(k, {o})
    requires forall x :: m in T(k, x).owned <==> x == o
    requires T(k, o).prio == if T(k, c).prio > Effective(k, o) then T(k, c).prio else Effective(k, o)
    ensures Settled(Enqueue(k, c, OfMutex(m), w))
  {
    var k' := Enqueue(k, c, OfMutex(m), w);
    JoinHeads(k, c, m, w);
    assert forall x :: T(k', x).prio == T(k, x).prio && T(k', x).base == T(k, x).base && T(k', x).owned == T(k, x).owned;
    assert k'.tcb.Keys == k.tcb.Keys;
    hide Enqueue, HeadPrio, MaxHead;
    MaxHeadRaised(k, k', T(k, o).owned, T(k, o).base, m, T(k, c).prio);
    forall x | x in k'.tcb ensures T(k', x).prio == Effective(k', x) {
      if x != o { OwedSame(k, k', x); }
    }
  }

  lemma OnlyOwnerHolds(k: State, m: Mutex)
    requires Linked(k) && M(k, m).locked
    ensures forall x :: m in T(k, x).owned <==> x == M(k, m).owner
  {
    LockedOwned(k, m);
    forall x ensures m in T(k, x).owned <==> x == M(k, m).owner {
      assert Held(k, x, m) == if x != 0 && M(k, m).locked && M(k, m).owner == x then 1 else 0;
    }
  }

  /** The chain of the state after blocking already shows that the owner's chain did not lead to c. */
  lemma NoLoopAfter(k: State, k': State, c: Task, o: Task, m: Mutex)
    requires ChainsShort(k') && k'.tcb.Keys == k.tcb.Keys && k'.mutexes == k.mutexes && M(k, m).owner == o
    requires T(k', c).blockedOn == Some(m) && T(k, c).blockedOn.None? && Live(k, c)
    requires forall x :: x != c ==> T(k', x).blockedOn == T(k, x).blockedOn
    ensures !OnChain(k, o, c, MAX_DEPTH + 1)
  {
    assert ChainEnds(k', c, MAX_DEPTH);
    EndingChainsDoNotLoop(k', c, MAX_DEPTH + 1, MAX_DEPTH);
    OnChainSame(k, k', o, c, MAX_DEPTH + 1);
  }

  lemma {:induction false} OnChainSame(k: State, k': State, t: Task, c: Task, n: nat)
    requires k'.tcb.Keys == k.tcb.Keys && k'.mutexes == k.mutexes
    requires forall x :: x != c ==> T(k', x).blockedOn == T(k, x).blockedOn
    ensures OnChain(k, t, c, n) ==> OnChain(k', t, c, n)
    decreases n
  {
    if t != c && n > 0 {
      assert NextTask(k', t) == NextTask(k, t);
      OnChainSame(k, k', NextTask(k, t), c, n - 1);
    }
  }

  /** Blocking on a mutex: the owner, and everyone the owner waits behind, is lifted at once. */
  lemma LockWaitSettled(k: State, c: Task, m: Mutex, w: Wait)
    requires Linked(k) && Settled(k) && Live(k, c) && T(k, c).waitList.None? && M(k, m).locked && M(k, m).owner != c
    requires ChainsShort(k) && ChainsShort(WaitBegin(LockPending(k, c, m, w), c, OfMutex(m), w))
    ensures Settled(WaitBegin(LockPending(k, c, m, w), c, OfMutex(m), w))
  {
    hide Linked, ChainsShort, LockPending, WaitBegin, Enqueue, OnChain, SettledBut, Live, Alike, OnlyLists;
    LockedOwned(k, m);
    OwnersLive(k, m);
    NoLoopBefore(k, c, m, w);
    LockPendingSettled(k, c, m, w);
    LockPendingLive(k, c, m, w);
    EnqueueIsAlike(LockPending(k, c, m, w), c, OfMutex(m), w);
    AlikeSettled(Enqueue(LockPending(k, c, m, w), c, OfMutex(m), w), WaitBegin(LockPending(k, c, m, w), c, OfMutex(m), w), {});
  }

  lemma LockPendingLive(k: State, c: Task, m: Mutex, w: Wait)
    requires Live(k, c)
    ensures Live(LockPending(k, c, m, w), c)
  {
    hide PriorityInherit;
  }

  lemma EnqueueIsAlike(k: State, c: Task, q: WaitQ, w: Wait)
    requires Live(k, c)
    ensures Alike(Enqueue(k, c, q, w), WaitBegin(k, c, q, w))
  {
    hide Enqueue, WaitBegin;
    WaitBeginIsEnqueue(k, c, q, w);
  }

  lemma NoLoopBefore(k: State, c: Task, m: Mutex, w: Wait)
    requires Linked(k) && Live(k, c) && T(k, c).waitList.None? && M(k, m).locked && M(k, m).owner != c
    requires ChainsShort(WaitBegin(LockPending(k, c, m, w), c, OfMutex(m), w))
    ensures !OnChain(k, M(k, m).owner, c, MAX_DEPTH + 1)
  {
    EdgesHold(k, c);
    LockWaitFrame(k, c, m, w);
    var k2 := LockPending(k, c, m, w);
    var k' := WaitBegin(k2, c, OfMutex(m), w);
    hide Linked, ChainsShort, LockPending, WaitBegin, OnChain, Becomes;
    BecomesTwice(k, k2, k', c, T(k2, c), Queueing(T(k2, c), OfMutex(m), w));
    BecomesAt(k, k', c, Queueing(T(k2, c), OfMutex(m), w));
    forall x | x != c ensures T(k', x).blockedOn == T(k, x).blockedOn {
      BecomesOther(k, k', c, Queueing(T(k2, c), OfMutex(m), w), x);
    }
    NoLoopAfter(k, k', c, M(k, m).owner, m);
  }

  /** The boost, seen from the state in which the loop began. */
  lemma LockBoost(k: State, c: Task, m: Mutex)
    requires Linked(k) && Settled(k) && Live(k, c) && T(k, c).waitList.None? && ChainsShort(k)
    requires M(k, m).locked && M(k, m).owner != c && Live(k, M(k, m).owner) && !OnChain(k, M(k, m).owner, c, MAX_DEPTH + 1)
    ensures var r := T(k, c).(doing := Some(OfMutex(m))); var o := M(k, m).owner; var k1 := PriorityInherit(SetTcb(k, c, r), c, o);
            && SettledBut(k1, {o}) && T(k1, c).prio == T(k, c).prio
            && T(k1, o).prio == (if T(k1, c).prio > Effective(k1, o) then T(k1, c).prio else Effective(k1, o))
  {
    EdgesHold(k, c);
    var o := M(k, m).owner;
    var r := T(k, c).(doing := Some(OfMutex(m)));
    var k0 := SetTcb(k, c, r);
    assert T(k0, c) == r && T(k0, o) == T(k, o);
    hide Linked, Settled, ChainsShort, OnChain, PriorityInherit;
    DebtRecorded(k, c, r, o);
    InheritSettles(k0, c, o);
  }

  lemma LockPendingSettled(k: State, c: Task, m: Mutex, w: Wait)
    requires Linked(k) && Settled(k) && Live(k, c) && T(k, c).waitList.None? && ChainsShort(k)
    requires M(k, m).locked && M(k, m).owner != c && Live(k, M(k, m).owner) && !OnChain(k, M(k, m).owner, c, MAX_DEPTH + 1)
    ensures Settled(Enqueue(LockPending(k, c, m, w), c, OfMutex(m), w))
  {
    var o := M(k, m).owner;
    var k1 := PriorityInherit(SetTcb(k, c, T(k, c).(doing := Some(OfMutex(m)))), c, o);
    var r := Published(T(k1, c), m, w);
    BoostFrame(k, c, m);
    LockBoost(k, c, m);
    BecomesAt(k, k1, c, T(k, c).(doing := Some(OfMutex(m)), piOwner := o));
    OnlyOwnerHolds(k1, m);
    assert LockPending(k, c, m, w) == SetTcb(k1, c, r);
    hide Linked, ChainsShort, OnChain, Becomes, PriorityInherit, Enqueue, LockPending, Settled, SettledBut, Effective;
    PublishedJoins(k1, c, o, m, w);
  }

  lemma PublishedJoins(k: State, c: Task, o: Task, m: Mutex, w: Wait)
    requires Live(k, c) && Live(k, o) && c != o && SettledBut(k, {o})
    requires forall x :: m in T(k, x).owned <==> x == o
    requires T(k, o).prio == if T(k, c).prio > Effective(k, o) then T(k, c).prio else Effective(k, o)
    ensures Settled(Enqueue(SetTcb(k, c, Published(T(k, c), m, w)), c, OfMutex(m), w))
  {
    var r := Published(T(k, c), m, w);
    var k2 := SetTcb(k, c, r);
    assert T(k2, c) == r && T(k2, o) == T(k, o) && forall x :: T(k2, x).owned == T(k, x).owned;
    hide SettledBut, Enqueue, Settled;
    SetTcbSettled(k, c, r, {o});
    SameEffective(k, c, r, o);
    hide Effective;
    JoinSettles(k2, c, o, m, w);
  }

  lemma SameEffective(k: State, c: Task, r: Tcb, o: Task)
    requires Live(k, c) && SameToInheritance(T(k, c), r)
    ensures Effective(SetTcb(k, c, r), o) == Effective(k, o)
  {
    var k' := SetTcb(k, c, r);
    forall m ensures HeadPrio(k', m) == HeadPrio(k, m) {
      assert WaitersOf(k', OfMutex(m)) == WaitersOf(k, OfMutex(m));
    }
    OwedSame(k, k', o);
  }

  // ---------- the mutex calls ----------

  /** os_mutex_lock, on every pass and every arm of its loop. */
  lemma MutexLockSettled(k: State, c: Task, m: Mutex, w: Wait)
    requires Linked(k) && Settled(k) && Live(k, c) && k.current == Some(c) && T(k, c).waitList.None?
    requires ChainsShort(k) && ChainsShort(MutexLock(k, c, m, w).0)
    ensures Settled(MutexLock(k, c, m, w).0)
  {
    hide Linked, Settled, ChainsShort, WaitEnd, OwnerLink, WaiterDepart, WaitBegin, PriorityInherit;
    if !M(k, m).locked {
      AcquireSettled(k, c, m);
      WaitEndSettled(OwnerLink(WithMutex(k, m, MutexObj(true, c)), c, m), false);
    } else if M(k, m).owner == c || w.Nothing? || !CanBlock(k, false) || w.Spent? {
      DepartSettled(k, c);
      WaitEndSettled(WaiterDepart(k, c), false);
    } else {
      LockWaitSettled(k, c, m, w);
    }
  }

  lemma TimedOutSettled(k: State, c: Task)
    requires Linked(k) && Settled(k) && Live(k, c) && T(k, c).waitList.None? && ChainsShort(k)
    ensures Settled(WaitTimedOut(k, c))
  {
    hide Linked, Settled, ChainsShort, WaitEnd, WaiterDepart;
    if T(k, c).doing.Some? && T(k, c).doing.value.OfMutex? { DepartSettled(k, c); WaitEndSettled(WaiterDepart(k, c), false); }
    else { WaitEndSettled(k, false); }
  }
}
