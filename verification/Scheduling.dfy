/** The scheduler's own invariants: the ready buckets and their bitmap name exactly the ready tasks,
    and a ready task that outranks the running one never goes unnoticed. */
module Scheduling {
  import opened Sequences
  import opened Kernel
  import opened Links
  import opened Operations
  import DeltaList

  function Queues(k: State, p: nat, t: Task): nat { multiset(Bucket(k, p))[t] }

  /** Outside xs, a task is in the bucket of its priority exactly when it is ready, once, and in no
      other; tasks in xs are in none. Bit p of the bitmap is set exactly when bucket p is not empty. */
  ghost predicate ReadyBut(k: State, xs: set<Task>) {
    && (forall p: nat, t: Task :: Queues(k, p, t) == if t !in xs && T(k, t).state == Ready && T(k, t).prio == p then 1 else 0)
    && (forall p: nat :: p in k.bitmap <==> Bucket(k, p) != [])
  }

  /** Priority 0 is the idle task's alone. */
  predicate Proper(p: nat) { 0 < p <= PRIO_MAX }

  ghost predicate Bounded(k: State) {
    && (forall t :: T(k, t).prio <= PRIO_MAX && T(k, t).base <= PRIO_MAX)
    && (forall t :: Live(k, t) ==> Proper(T(k, t).prio) && Proper(T(k, t).base))
  }

  /** Only the current task runs, and a locked scheduler has one running. */
  ghost predicate CurrentOk(k: State) {
    && IDLE !in k.tcb
    && (forall t: Task :: T(k, t).state == Running ==> k.current == Some(t))
    && (k.current.Some? && k.current.value != IDLE ==> Live(k, k.current.value))
    && (k.lockCount > 0 ==> k.current == Some(IDLE) || (k.current.Some? && T(k, k.current.value).state == Running))
  }

  /** A ready priority above p. */
  ghost predicate Above(bitmap: set<nat>, p: nat) { exists b :: b in bitmap && b > p }

  /** The processor belongs to someone else: nothing current, a current task that no longer runs, or a
      ready one that outranks it. */
  ghost predicate Outranked(k: State) {
    match k.current
    case None => true
    case Some(c) => (c != IDLE && T(k, c).state != Running) || Above(k.bitmap, T(k, c).prio)
  }

  /** A context switch is on its way, at once or when the scheduler is unlocked. */
  predicate Requested(k: State) { k.pendSv || (k.lockCount > 0 && k.switchPending) }

  ghost predicate NoMissed(k: State) { Outranked(k) ==> Requested(k) }

  ghost predicate Structured(k: State, xs: set<Task>) { ReadyBut(k, xs) && Bounded(k) && CurrentOk(k) }

  /** The scheduling invariant. */
  ghost predicate Scheduled(k: State) { Structured(k, {}) && NoMissed(k) }

  // ---------- buckets ----------

  lemma LeaveReadyBucket(k: State, t: Task, b: nat)
    ensures Bucket(LeaveReady(k, t), b) == if b == T(k, t).prio then Without(Bucket(k, b), t) else Bucket(k, b)
    ensures b in LeaveReady(k, t).bitmap <==> b in k.bitmap && (b == T(k, t).prio ==> Without(Bucket(k, b), t) != [])
    ensures LeaveReady(k, t).tcb == k.tcb && LeaveReady(k, t).bitmap <= k.bitmap
  {
    hide Without;
  }

  lemma LeaveReadyCount(k: State, t: Task, b: nat, x: Task)
    requires Queues(k, b, x) == if T(k, x).state == Ready && T(k, x).prio == b then 1 else 0
    ensures Queues(LeaveReady(k, t), b, x) == if x != t && T(k, x).state == Ready && T(k, x).prio == b then 1 else 0
  {
    LeaveReadyBucket(k, t, b);
    WithoutCounts(Bucket(k, b), t);
    hide Without, LeaveReady;
  }

  lemma LeaveReadyBuckets(k: State, t: Task)
    requires ReadyBut(k, {}) && T(k, t).state == Ready
    ensures ReadyBut(LeaveReady(k, t), {t}) && LeaveReady(k, t).bitmap <= k.bitmap
    ensures LeaveReady(k, t).tcb == k.tcb
  {
    var k' := LeaveReady(k, t);
    LeaveReadyBucket(k, t, 0);
    assert forall x :: T(k', x) == T(k, x);
    hide LeaveReady, Queues, Bucket;
    forall b, x ensures Queues(k', b, x) == if x !in {t} && T(k', x).state == Ready && T(k', x).prio == b then 1 else 0 {
      assert Queues(k, b, x) == if x !in {} && T(k, x).state == Ready && T(k, x).prio == b then 1 else 0;
      LeaveReadyCount(k, t, b, x);
    }
    forall b: nat ensures b in k'.bitmap <==> Bucket(k', b) != [] {
      LeaveReadyBucket(k, t, b);
      if Bucket(k, b) == [] { assert Without(Bucket(k, b), t) == []; }
    }
  }

  lemma MakeReadyBucket(k: State, t: Task, b: nat)
    ensures Bucket(MakeReady(k, t), b) == if b == T(k, t).prio then Bucket(k, b) + [t] else Bucket(k, b)
    ensures MakeReady(k, t).bitmap == k.bitmap + {T(k, t).prio}
    ensures forall x :: T(MakeReady(k, t), x) == if x == t then T(k, t).(state := Ready) else T(k, x)
  {
  }

  lemma MakeReadyCount(k: State, t: Task, b: nat, x: Task)
    requires Queues(k, b, x) == if x != t && T(k, x).state == Ready && T(k, x).prio == b then 1 else 0
    ensures Queues(MakeReady(k, t), b, x) == if T(MakeReady(k, t), x).state == Ready && T(MakeReady(k, t), x).prio == b then 1 else 0
  {
    MakeReadyBucket(k, t, b);
    assert multiset(Bucket(k, b) + [t]) == multiset(Bucket(k, b)) + multiset{t};
    hide MakeReady;
  }

  lemma MakeReadyBuckets(k: State, t: Task)
    requires ReadyBut(k, {t})
    ensures ReadyBut(MakeReady(k, t), {}) && MakeReady(k, t).bitmap == k.bitmap + {T(k, t).prio}
  {
    var k' := MakeReady(k, t);
    MakeReadyBucket(k, t, 0);
    hide MakeReady, Queues, Bucket, T;
    forall b, x ensures Queues(k', b, x) == if x !in {} && T(k', x).state == Ready && T(k', x).prio == b then 1 else 0 {
      assert Queues(k, b, x) == if x !in {t} && T(k, x).state == Ready && T(k, x).prio == b then 1 else 0;
      MakeReadyCount(k, t, b, x);
    }
    forall b: nat ensures b in k'.bitmap <==> Bucket(k', b) != [] { MakeReadyBucket(k, t, b); }
  }

  /** Buckets and bitmap untouched, and the run states outside xs: nothing about readiness changes. */
  lemma SameBuckets(k: State, k': State, xs: set<Task>)
    requires ReadyBut(k, xs) && k'.ready == k.ready && k'.bitmap == k.bitmap
    requires forall x :: x !in xs ==> T(k', x).state == T(k, x).state && T(k', x).prio == T(k, x).prio
    ensures ReadyBut(k', xs)
  {
    assert forall b :: Bucket(k', b) == Bucket(k, b);
    forall b, x ensures Queues(k', b, x) == if x !in xs && T(k', x).state == Ready && T(k', x).prio == b then 1 else 0 {
      assert Queues(k, b, x) == if x !in xs && T(k, x).state == Ready && T(k, x).prio == b then 1 else 0;
    }
  }

  /** A task that is not ready may be left out or not: it is in no bucket. */
  lemma UnreadyEitherWay(k: State, t: Task)
    requires T(k, t).state != Ready
    ensures ReadyBut(k, {}) <==> ReadyBut(k, {t})
  {
    if ReadyBut(k, {}) {
      forall p, x ensures Queues(k, p, x) == if x !in {t} && T(k, x).state == Ready && T(k, x).prio == p then 1 else 0 {
        assert Queues(k, p, x) == if x !in {} && T(k, x).state == Ready && T(k, x).prio == p then 1 else 0;
      }
    }
    if ReadyBut(k, {t}) {
      forall p, x ensures Queues(k, p, x) == if x !in {} && T(k, x).state == Ready && T(k, x).prio == p then 1 else 0 {
        assert Queues(k, p, x) == if x !in {t} && T(k, x).state == Ready && T(k, x).prio == p then 1 else 0;
      }
    }
  }

  // ---------- states the scheduler cannot tell apart ----------

  /** Run states, priorities, buckets, requests and the running task agree. */
  ghost predicate AlikeToScheduler(k: State, k': State) {
    && k'.tcb.Keys == k.tcb.Keys
    && (forall x :: T(k', x).state == T(k, x).state && T(k', x).prio == T(k, x).prio && T(k', x).base == T(k, x).base)
    && k'.ready == k.ready && k'.bitmap == k.bitmap && k'.current == k.current && k'.lockCount == k.lockCount
    && k'.pendSv == k.pendSv && k'.switchPending == k.switchPending
  }

  lemma AlikeKeeps(k: State, k': State, xs: set<Task>)
    requires AlikeToScheduler(k, k')
    ensures Structured(k, xs) ==> Structured(k', xs)
    ensures NoMissed(k) ==> NoMissed(k')
  {
    if Structured(k, xs) { SameBuckets(k, k', xs); }
  }

  // ---------- requests ----------

  /** The request flags are no part of the structure, and unlocking only weakens what it asks. */
  lemma FlagsKeep(k: State, k': State, xs: set<Task>)
    requires Structured(k, xs) && k'.lockCount <= k.lockCount
    requires k' == k.(pendSv := k'.pendSv, switchPending := k'.switchPending, lockCount := k'.lockCount)
    ensures Structured(k', xs)
  {
    assert forall x :: T(k', x) == T(k, x);
    SameBuckets(k, k', xs);
    hide ReadyBut;
    assert Bounded(k');
    hide Bounded;
  }

  lemma RequestKeeps(k: State, xs: set<Task>)
    ensures NoMissed(SwitchRequest(k)) && Requested(SwitchRequest(k))
    ensures Structured(k, xs) ==> Structured(SwitchRequest(k), xs)
  {
    hide Structured;
    if Structured(k, xs) { FlagsKeep(k, SwitchRequest(k), xs); }
  }

  lemma PreemptKeeps(k: State, t: Task, xs: set<Task>)
    ensures NoMissed(k) ==> NoMissed(PreemptRequest(k, t))
    ensures Structured(k, xs) ==> Structured(PreemptRequest(k, t), xs)
  {
    hide Structured, SwitchRequest, Outranked;
    RequestKeeps(k, xs);
  }

  /** A task just made ready is noticed if it outranks the running one. */
  lemma NewcomerNoticed(k: State, t: Task)
    requires NoMissed(k) && Live(k, t) && T(k, t).state != Running
    ensures NoMissed(PreemptRequest(MakeReady(k, t), t))
  {
    var k1 := MakeReady(k, t);
    assert forall x :: x != t ==> T(k1, x) == T(k, x);
    assert T(k1, t) == T(k, t).(state := Ready);
    assert k1.current == k.current && Requested(k1) == Requested(k) && k1.bitmap == k.bitmap + {T(k, t).prio};
    hide MakeReady;
    if k.current.Some? && Above(k1.bitmap, T(k, k.current.value).prio) && T(k, t).prio <= T(k, k.current.value).prio {
      var b :| b in k1.bitmap && b > T(k, k.current.value).prio;
      assert b in k.bitmap;
      assert Above(k.bitmap, T(k, k.current.value).prio);
    }
    RequestKeeps(k1, {});
  }

  /** A task that does not run becomes ready, and asks for the processor if it should have it. */
  lemma ReadyAndRequest(k: State, t: Task)
    requires Structured(k, {t}) && NoMissed(k) && Live(k, t) && T(k, t).state != Running
    ensures Scheduled(PreemptRequest(MakeReady(k, t), t))
  {
    MakeReadyBuckets(k, t);
    ReadyKeepsCurrent(k, t);
    NewcomerNoticed(k, t);
    hide ReadyBut, MakeReady, NoMissed, PreemptRequest, CurrentOk, Bounded;
    PreemptKeeps(MakeReady(k, t), t, {});
  }

  // ---------- one priority change ----------

  /** t is out of its bucket, at its new priority p. */
  ghost predicate Lifted(k: State, k2: State, t: Task, p: nat) {
    && k2 == k.(tcb := k.tcb[t := T(k, t).(prio := p)], ready := k2.ready, bitmap := k2.bitmap)
    && k2.bitmap <= k.bitmap && T(k, t).prio in k.bitmap && Live(k, t) && T(k, t).state == Ready
  }

  /** Taking t out of its bucket uncovers nobody. */
  lemma LiftedKeeps(k: State, k2: State, t: Task, p: nat)
    requires NoMissed(k) && CurrentOk(k) && Bounded(k) && Lifted(k, k2, t, p) && Proper(p)
    ensures NoMissed(k2) && CurrentOk(k2) && Bounded(k2)
  {
    assert forall x :: x != t ==> T(k2, x) == T(k, x);
    assert T(k2, t) == T(k, t).(prio := p);
  }

  lemma ReadyKeepsCurrent(k: State, t: Task)
    requires CurrentOk(k) && Bounded(k) && Live(k, t) && T(k, t).state != Running
    ensures CurrentOk(MakeReady(k, t)) && Bounded(MakeReady(k, t))
  {
    var k' := MakeReady(k, t);
    assert k'.tcb.Keys == k.tcb.Keys && k'.current == k.current && k'.lockCount == k.lockCount;
    assert forall x :: x != t ==> T(k', x) == T(k, x);
    assert T(k', t) == T(k, t).(state := Ready);
    hide MakeReady;
    assert Bounded(k');
    hide Bounded;
  }

  /** A ready task that is lowered outranks nobody it did not outrank before. */
  lemma LoweredOutranksNoMore(k: State, k2: State, t: Task, p: nat)
    requires NoMissed(k) && CurrentOk(k) && Lifted(k, k2, t, p) && p <= T(k, t).prio
    ensures NoMissed(MakeReady(k2, t))
  {
    var k3 := MakeReady(k2, t);
    assert k3.bitmap == k2.bitmap + {p};
    assert forall x :: x != t ==> T(k3, x) == T(k, x);
    assert k3.current == k.current && Requested(k3) == Requested(k);
    hide MakeReady;
    if k.current.Some? && k.current != Some(t) && Above(k3.bitmap, T(k, k.current.value).prio) {
      var b :| b in k3.bitmap && b > T(k, k.current.value).prio;
      assert (if b == p then T(k, t).prio else b) in k.bitmap;
      assert Above(k.bitmap, T(k, k.current.value).prio);
    }
    assert Outranked(k3) ==> Outranked(k);
  }

  lemma RebucketKeeps(k: State, t: Task, p: nat)
    requires Scheduled(k) && Live(k, t) && T(k, t).state == Ready && Proper(p)
    ensures Scheduled(Rebucket(k, t, p))
  {
    var k1 := LeaveReady(k, t);
    LeaveReadyBuckets(k, t);
    var k2 := SetTcb(k1, t, T(k, t).(prio := p));
    assert forall x :: x != t ==> T(k2, x) == T(k1, x);
    SameBuckets(k1, k2, {t});
    assert Queues(k, T(k, t).prio, t) == 1;
    assert T(k, t).prio in k.bitmap;
    assert Lifted(k, k2, t, p);
    hide ReadyBut, LeaveReady, MakeReady, Outranked, CurrentOk, Bounded, NoMissed;
    LiftedKeeps(k, k2, t, p);
    assert T(k2, t).state == Ready;
    if p > T(k, t).prio {
      ReadyAndRequest(k2, t);
    } else {
      hide Lifted;
      MakeReadyBuckets(k2, t);
      ReadyKeepsCurrent(k2, t);
      LoweredOutranksNoMore(k, k2, t, p);
    }
  }

  lemma LowerRunningKeeps(k: State, t: Task, p: nat)
    requires Scheduled(k) && Live(k, t) && T(k, t).state == Running && p < T(k, t).prio && Proper(p)
    ensures Scheduled(LowerRunning(k, t, p))
  {
    var k1 := SetTcb(k, t, T(k, t).(prio := p));
    assert forall x :: x != t ==> T(k1, x) == T(k, x);
    UnreadyEitherWay(k, t);
    SameBuckets(k, k1, {t});
    UnreadyEitherWay(k1, t);
    assert k.current == Some(t);
    hide ReadyBut;
    assert Structured(k1, {});
    RequestKeeps(k1, {});
    assert p < PRIO_MAX;
  }

  /** Outside the buckets a priority may change in place, as long as the running task is not lowered. */
  lemma SetPriorityKeeps(k: State, t: Task, p: nat)
    requires Scheduled(k) && Live(k, t) && T(k, t).state != Ready && Proper(p)
    requires T(k, t).state == Running ==> p >= T(k, t).prio
    ensures Scheduled(SetTcb(k, t, T(k, t).(prio := p)))
  {
    var k1 := SetTcb(k, t, T(k, t).(prio := p));
    assert forall x :: x != t ==> T(k1, x) == T(k, x);
    UnreadyEitherWay(k, t);
    SameBuckets(k, k1, {t});
    UnreadyEitherWay(k1, t);
    hide ReadyBut;
    assert T(k, t).state == Running && Above(k.bitmap, p) ==> Above(k.bitmap, T(k, t).prio);
    hide Above;
    assert NoMissed(k1);
  }

  lemma RequeueIs(k: State, t: Task, p: nat)
    ensures AlikeToScheduler(SetTcb(k, t, T(k, t).(prio := p)), Requeue(k, t, p))
  {
    hide Ranked, Without;
  }

  lemma RequeueKeeps(k: State, t: Task, p: nat)
    requires Scheduled(k) && Live(k, t) && T(k, t).state != Ready && Proper(p)
    requires T(k, t).state == Running ==> p >= T(k, t).prio
    ensures Scheduled(Requeue(k, t, p))
  {
    SetPriorityKeeps(k, t, p);
    RequeueIs(k, t, p);
    hide Structured, NoMissed, Requeue, AlikeToScheduler;
    AlikeKeeps(SetTcb(k, t, T(k, t).(prio := p)), Requeue(k, t, p), {});
  }

  lemma PriorityKeepsSchedule(k: State, t: Task, p: nat)
    requires Scheduled(k) && Live(k, t) && Proper(p)
    ensures Scheduled(EffectivePrioritySet(k, t, p))
  {
    hide Scheduled, Rebucket, LowerRunning, Requeue;
    if p != T(k, t).prio {
      if T(k, t).state == Ready { RebucketKeeps(k, t, p); }
      else if T(k, t).state == Running && p < T(k, t).prio { LowerRunningKeeps(k, t, p); }
      else { RequeueKeeps(k, t, p); }
    }
  }

  lemma {:induction false} MaxHeadBounded(k: State, ms: seq<Mutex>, acc: nat)
    requires Bounded(k) && Proper(acc)
    ensures Proper(MaxHead(k, ms, acc))
  {
    if ms != [] {
      MaxHeadBounded(k, ms[1..], if HeadPrio(k, ms[0]) > acc then HeadPrio(k, ms[0]) else acc);
    }
  }

  lemma {:induction false} RecomputeKeepsSchedule(k: State, t: Task, n: nat)
    requires Scheduled(k)
    ensures Scheduled(PriorityRecompute(k, t, n))
    decreases n
  {
    if n > 0 && Live(k, t) {
      MaxHeadBounded(k, T(k, t).owned, T(k, t).base);
      assert Proper(Effective(k, t));
      hide Scheduled, EffectivePrioritySet, Effective;
      var k1 := EffectivePrioritySet(k, t, Effective(k, t));
      PriorityKeepsSchedule(k, t, Effective(k, t));
      if T(k1, t).blockedOn.Some? {
        RecomputeKeepsSchedule(k1, M(k1, T(k1, t).blockedOn.value).owner, n - 1);
      }
    }
  }
}
