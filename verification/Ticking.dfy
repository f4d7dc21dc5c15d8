/** Ticks compose: announcing a + b ticks at once leaves the whole kernel - wake order, ready lists,
    priorities, requests and the remaining delays - as announcing a and then b. */
module Ticking {
  import opened Sequences
  import opened Kernel
  import opened Links
  import opened Operations
  import opened Scheduling
  import opened Preemption
  import opened Waking
  import opened NoLostWakeups
  import opened Timeouts
  import opened Runs
  import DeltaList

  /** The state with another delay list, and a switch perhaps pended besides. */
  function Aside(k: State, d: seq<DeltaList.Entry>, pend: bool): State { k.(delay := d, pendSv := k.pendSv || pend) }

  // ---------- nothing but the delay list itself depends on the delay list ----------

  lemma ReadyBlind(k: State, t: Task, d: seq<DeltaList.Entry>, pend: bool)
    ensures MakeReady(Aside(k, d, pend), t) == Aside(MakeReady(k, t), d, pend)
    ensures LeaveReady(Aside(k, d, pend), t) == Aside(LeaveReady(k, t), d, pend)
  {
    assert T(Aside(k, d, pend), t) == T(k, t);
    assert forall p :: Bucket(Aside(k, d, pend), p) == Bucket(k, p);
  }

  lemma SwitchBlind(k: State, d: seq<DeltaList.Entry>, pend: bool)
    ensures SwitchRequest(Aside(k, d, pend)) == Aside(SwitchRequest(k), d, pend)
  {
  }

  lemma AsideSees(k: State, d: seq<DeltaList.Entry>, pend: bool, x: Task)
    ensures T(Aside(k, d, pend), x) == T(k, x) && Aside(k, d, pend).current == k.current
  {
  }

  lemma RequestBlind(k: State, t: Task, d: seq<DeltaList.Entry>, pend: bool)
    ensures PreemptRequest(Aside(k, d, pend), t) == Aside(PreemptRequest(k, t), d, pend)
  {
    hide Aside, SwitchRequest, T;
    SwitchBlind(k, d, pend);
    AsideSees(k, d, pend, t);
    if k.current.Some? { AsideSees(k, d, pend, k.current.value); }
  }

  lemma SetTcbBlind(k: State, t: Task, r: Tcb, d: seq<DeltaList.Entry>, pend: bool)
    ensures SetTcb(Aside(k, d, pend), t, r) == Aside(SetTcb(k, t, r), d, pend)
  {
  }

  lemma RebucketBlind(k: State, t: Task, p: nat, d: seq<DeltaList.Entry>, pend: bool)
    ensures Rebucket(Aside(k, d, pend), t, p) == Aside(Rebucket(k, t, p), d, pend)
  {
    assert T(Aside(k, d, pend), t) == T(k, t);
    ReadyBlind(k, t, d, pend);
    var k1 := LeaveReady(k, t);
    var k2 := SetTcb(k1, t, T(k, t).(prio := p));
    hide LeaveReady, MakeReady, PreemptRequest;
    SetTcbBlind(k1, t, T(k, t).(prio := p), d, pend);
    ReadyBlind(k2, t, d, pend);
    RequestBlind(MakeReady(k2, t), t, d, pend);
  }

  lemma LowerBlind(k: State, t: Task, p: nat, d: seq<DeltaList.Entry>, pend: bool)
    ensures LowerRunning(Aside(k, d, pend), t, p) == Aside(LowerRunning(k, t, p), d, pend)
  {
    assert T(Aside(k, d, pend), t) == T(k, t);
    hide SwitchRequest;
    SwitchBlind(SetTcb(k, t, T(k, t).(prio := p)), d, pend);
  }

  lemma RequeueBlind(k: State, t: Task, p: nat, d: seq<DeltaList.Entry>, pend: bool)
    ensures Requeue(Aside(k, d, pend), t, p) == Aside(Requeue(k, t, p), d, pend)
  {
    assert T(Aside(k, d, pend), t) == T(k, t);
    hide Ranked, Without;
  }

  lemma PriorityBlind(k: State, t: Task, p: nat, d: seq<DeltaList.Entry>, pend: bool)
    ensures EffectivePrioritySet(Aside(k, d, pend), t, p) == Aside(EffectivePrioritySet(k, t, p), d, pend)
  {
    assert T(Aside(k, d, pend), t) == T(k, t);
    hide Rebucket, LowerRunning, Requeue;
    RebucketBlind(k, t, p, d, pend);
    LowerBlind(k, t, p, d, pend);
    RequeueBlind(k, t, p, d, pend);
  }

  lemma {:induction false} MaxHeadBlind(k: State, ms: seq<Mutex>, acc: nat, d: seq<DeltaList.Entry>, pend: bool)
    ensures MaxHead(Aside(k, d, pend), ms, acc) == MaxHead(k, ms, acc)
  {
    if ms != [] {
      assert HeadPrio(Aside(k, d, pend), ms[0]) == HeadPrio(k, ms[0]) by {
        assert WaitersOf(Aside(k, d, pend), OfMutex(ms[0])) == WaitersOf(k, OfMutex(ms[0]));
        assert forall x :: T(Aside(k, d, pend), x) == T(k, x);
      }
      MaxHeadBlind(k, ms[1..], if HeadPrio(k, ms[0]) > acc then HeadPrio(k, ms[0]) else acc, d, pend);
    }
  }

  lemma {:induction false} RecomputeBlind(k: State, t: Task, n: nat, d: seq<DeltaList.Entry>, pend: bool)
    ensures PriorityRecompute(Aside(k, d, pend), t, n) == Aside(PriorityRecompute(k, t, n), d, pend)
    decreases n
  {
    if n > 0 && Live(k, t) {
      assert T(Aside(k, d, pend), t) == T(k, t);
      MaxHeadBlind(k, T(k, t).owned, T(k, t).base, d, pend);
      assert Effective(Aside(k, d, pend), t) == Effective(k, t);
      hide Effective, EffectivePrioritySet;
      var k1 := EffectivePrioritySet(k, t, Effective(k, t));
      PriorityBlind(k, t, Effective(k, t), d, pend);
      assert T(Aside(k1, d, pend), t) == T(k1, t);
      if T(k1, t).blockedOn.Some? {
        RecomputeBlind(k1, M(k1, T(k1, t).blockedOn.value).owner, n - 1, d, pend);
      }
    }
  }

  lemma LeaveClearBlind(k: State, q: WaitQ, t: Task, d: seq<DeltaList.Entry>, pend: bool)
    ensures LeaveAndClear(Aside(k, d, pend), q, t) == Aside(LeaveAndClear(k, q, t), d, pend)
    ensures DebtOwner(Aside(k, d, pend), t) == DebtOwner(k, t)
  {
    assert T(Aside(k, d, pend), t) == T(k, t);
    hide Without;
  }

  /** A due task's entry is already spent: unlinking it finds nothing more to take off the list. */
  lemma LeaveStateBlind(k: State, t: Task, d: seq<DeltaList.Entry>, pend: bool)
    requires T(k, t).state == Blocked && t !in DeltaList.Ids(k.delay) && t !in DeltaList.Ids(d)
    ensures LeaveStateList(Aside(k, d, pend), t) == Aside(LeaveStateList(k, t), d, pend) && LeaveStateList(k, t) == k
  {
    assert T(Aside(k, d, pend), t) == T(k, t);
    DeltaList.RemoveMiss(k.delay, t);
    DeltaList.RemoveMiss(d, t);
  }

  lemma UnlinkBlind(k: State, t: Task, d: seq<DeltaList.Entry>, pend: bool)
    requires Live(k, t) && T(k, t).state == Blocked && t !in DeltaList.Ids(k.delay) && t !in DeltaList.Ids(d)
    ensures Unlink(Aside(k, d, pend), t) == Aside(Unlink(k, t), d, pend)
  {
    LeaveStateBlind(k, t, d, pend);
    UnlinkInSteps(k, t);
    UnlinkInSteps(Aside(k, d, pend), t);
    assert T(Aside(k, d, pend), t) == T(k, t);
    hide Unlink, LeaveStateList, LeaveAndClear, PriorityRecompute;
    if T(k, t).waitList.Some? {
      var q := T(k, t).waitList.value;
      LeaveClearBlind(k, q, t, d, pend);
      RecomputeBlind(LeaveAndClear(k, q, t), DebtOwner(k, t), MAX_DEPTH, d, pend);
    } else {
      LeaveClearBlind(k, OfSem(0), t, d, pend);
    }
  }

  lemma ExpireBlind(k: State, t: Task, d: seq<DeltaList.Entry>, pend: bool)
    requires Live(k, t) && T(k, t).state == Blocked && t !in DeltaList.Ids(k.delay) && t !in DeltaList.Ids(d)
    ensures ExpireWait(Aside(k, d, pend), t) == Aside(ExpireWait(k, t), d, pend)
  {
    hide Unlink, MakeReady, PreemptRequest;
    UnlinkBlind(k, t, d, pend);
    ReadyBlind(Unlink(k, t), t, d, pend);
    RequestBlind(MakeReady(Unlink(k, t), t), t, d, pend);
  }

  /** Every task named in due sleeps, once, and has left the list. */
  lemma DueIsSpent(k: State, due: seq<Task>, i: nat)
    requires DelayedBut(k, multiset(due)) && i < |due|
    ensures due[i] !in DeltaList.Ids(k.delay)
  {
    assert Entries(k, due[i]) + multiset(due)[due[i]] == if Sleeping(T(k, due[i])) then 1 else 0;
    assert due[i] in multiset(due);
  }

  lemma {:induction false} ExpireAllBlind(k: State, due: seq<Task>, d: seq<DeltaList.Entry>, pend: bool)
    requires Protocol(k) && Scheduled(k) && DelayedBut(k, multiset(due))
    requires forall i :: 0 <= i < |due| ==> due[i] !in DeltaList.Ids(d)
    ensures ExpireAll(Aside(k, d, pend), due) == Aside(ExpireAll(k, due), d, pend)
    decreases |due|
  {
    hide Protocol, Scheduled, DelayedBut, ExpireWait;
    if due != [] {
      var t := due[0];
      DueSleeps(k, due);
      DueIsSpent(k, due, 0);
      ProtocolLinks(k);
      ExpireProtocol(k, t);
      ExpireKeeps(k, t);
      ExpireDelayed(k, t, multiset(due));
      ExpireBlind(k, t, d, pend);
      forall i | 0 <= i < |due[1..]| ensures due[1..][i] !in DeltaList.Ids(d) { assert due[1..][i] == due[i + 1]; }
      ExpireAllBlind(ExpireWait(k, t), due[1..], d, pend);
    }
  }

  lemma {:induction false} ExpireAllDelay(k: State, due: seq<Task>)
    requires Protocol(k) && Scheduled(k) && DelayedBut(k, multiset(due))
    ensures ExpireAll(k, due).delay == k.delay
    decreases |due|
  {
    hide Protocol, Scheduled, DelayedBut;
    if due != [] {
      var t := due[0];
      DueSleeps(k, due);
      DueIsSpent(k, due, 0);
      ProtocolLinks(k);
      ExpireProtocol(k, t);
      ExpireKeeps(k, t);
      ExpireDelayed(k, t, multiset(due));
      ExpireDelay(k, t);
      ExpireAllDelay(ExpireWait(k, t), due[1..]);
    }
  }

  lemma ExpireDelay(k: State, t: Task)
    requires Linked(k) && Live(k, t) && T(k, t).state == Blocked && t !in DeltaList.Ids(k.delay)
    ensures ExpireWait(k, t).delay == k.delay
  {
    hide Unlink, MakeReady, PreemptRequest, Linked;
    UnlinkDelay(k, t);
    LeaveStateBlind(k, t, k.delay, false);
    ReadyDelay(Unlink(k, t), t);
  }

  lemma {:induction false} ExpireAllJoins(k: State, a: seq<Task>, b: seq<Task>)
    ensures ExpireAll(k, a + b) == ExpireAll(ExpireAll(k, a), b)
    decreases |a|
  {
    if a == [] {
      assert a + b == b;
    } else {
      assert (a + b)[0] == a[0] && (a + b)[1..] == a[1..] + b;
      ExpireAllJoins(ExpireWait(k, a[0]), a[1..], b);
    }
  }

  /** The sleepers still in the list are none of those already due. */
  lemma TakenIsDisjoint(l: seq<DeltaList.Entry>, a: nat, b: nat, k: State)
    requires Delayed(k) && l == k.delay
    ensures forall i :: 0 <= i < |DeltaList.Expired(l, a)| ==> DeltaList.Expired(l, a)[i] !in DeltaList.Ids(DeltaList.Remaining(DeltaList.Remaining(l, a), b))
  {
    var rest := DeltaList.Remaining(l, a);
    AdvanceIds(l, a);
    AdvanceIds(rest, b);
    forall i | 0 <= i < |DeltaList.Expired(l, a)| ensures DeltaList.Expired(l, a)[i] !in DeltaList.Ids(DeltaList.Remaining(rest, b)) {
      var t := DeltaList.Expired(l, a)[i];
      assert Entries(k, t) + multiset{}[t] == if Sleeping(T(k, t)) then 1 else 0;
      assert t in multiset(DeltaList.Expired(l, a));
      assert t in DeltaList.Ids(DeltaList.Remaining(rest, b)) ==> t in multiset(DeltaList.Ids(DeltaList.Remaining(rest, b)));
    }
  }

  /** One update is: install the remaining list, wake the due. */
  lemma TickIs(k: State, n: nat)
    requires n != 0
    ensures TickUpdate(k, n) == ExpireAll(Aside(k, DeltaList.Remaining(k.delay, n), false), DeltaList.Expired(k.delay, n))
  {
  }

  /** What the due sleepers may rely on once the remaining list is installed. */
  lemma TickPrepares(k: State, n: nat)
    requires Safe(k)
    ensures var k1 := Aside(k, DeltaList.Remaining(k.delay, n), false);
            Protocol(k1) && Scheduled(k1) && DelayedBut(k1, multiset(DeltaList.Expired(k.delay, n)))
  {
    var k1 := Aside(k, DeltaList.Remaining(k.delay, n), false);
    TickTakes(k, n);
    hide Protocol, Structured, NoMissed, DelayedBut, DeltaList.Expired, DeltaList.Remaining;
    SameProtocol(k, k1);
    OtherListsKeep(k, k1, {});
  }

  /** Ticks compose, on the whole kernel state. */
  lemma TicksCompose(k: State, a: nat, b: nat)
    requires Safe(k)
    ensures TickUpdate(k, a + b) == TickUpdate(TickUpdate(k, a), b)
  {
    if a == 0 || b == 0 {
      assert TickUpdate(k, 0) == k;
    } else {
      var l := k.delay;
      var due, rest := DeltaList.Expired(l, a), DeltaList.Remaining(l, a);
      var due2, rest2 := DeltaList.Expired(rest, b), DeltaList.Remaining(rest, b);
      var k1 := Aside(k, rest, false);
      assert Aside(k, rest2, false) == Aside(k1, rest2, false) && k1.delay == rest && Delayed(k);
      hide *;
      DeltaList.AdvanceComposes(l, a, b);
      TickIs(k, a);
      TickIs(k, a + b);
      TickIs(ExpireAll(k1, due), b);
      TakenIsDisjoint(l, a, b, k);
      TickPrepares(k, a);
      ExpireAllBlind(k1, due, rest2, false);
      ExpireAllDelay(k1, due);
      ExpireAllJoins(Aside(k1, rest2, false), due, due2);
    }
  }

  function Pended(k: State): State { k.(pendSv := true) }

  lemma PendedIsAside(k: State)
    ensures Pended(k) == Aside(k, k.delay, true)
  {
  }

  /** A switch already pended changes nothing else of a tick. */
  lemma TickPended(k: State, ticks: nat)
    requires Safe(k)
    ensures TickUpdate(Pended(k), ticks) == Pended(TickUpdate(k, ticks))
  {
    if ticks != 0 {
      var due, rest := DeltaList.Expired(k.delay, ticks), DeltaList.Remaining(k.delay, ticks);
      var k1 := k.(delay := rest);
      TickTakes(k, ticks);
      DueIsGone(k, ticks);
      hide Protocol, Structured, NoMissed, DelayedBut, DeltaList.Expired, DeltaList.Remaining;
      SameProtocol(k, k1);
      OtherListsKeep(k, k1, {});
      ExpireAllBlind(k1, due, rest, true);
      ExpireAllDelay(k1, due);
      PendedIsAside(ExpireAll(k1, due));
      assert Pended(k).(delay := rest) == Aside(k1, rest, true);
    }
  }

  lemma DueIsGone(k: State, ticks: nat)
    requires Delayed(k)
    ensures forall i :: 0 <= i < |DeltaList.Expired(k.delay, ticks)| ==>
              DeltaList.Expired(k.delay, ticks)[i] !in DeltaList.Ids(DeltaList.Remaining(k.delay, ticks))
  {
    TakenIsDisjoint(k.delay, ticks, 0, k);
    DeltaList.AdvanceComposes(k.delay, ticks, 0);
  }

  lemma WakePended(k: State, t: Task)
    requires Linked(k) && (T(k, t).state == Blocked ==> !T(k, t).timed)
    ensures forall d, pend :: WakeBlocked(Aside(k, d, pend), t) == Aside(WakeBlocked(k, t), d, pend)
    ensures WakeBlocked(k, t).delay == k.delay
  {
    forall d, pend ensures WakeBlocked(Aside(k, d, pend), t) == Aside(WakeBlocked(k, t), d, pend) {
      assert T(Aside(k, d, pend), t) == T(k, t);
      if Live(k, t) && T(k, t).state == Blocked { WakeBlind(k, t, d, pend); }
    }
    if Live(k, t) && T(k, t).state == Blocked {
      UnlinkDelay(k, t);
      hide Unlink, MakeReady, PreemptRequest, Linked;
      ResumeDelay(Unlink(k, t), t, T(Unlink(k, t), t).(signaled := true));
    }
  }

  lemma WakeBlind(k: State, t: Task, d: seq<DeltaList.Entry>, pend: bool)
    requires Live(k, t) && T(k, t).state == Blocked && !T(k, t).timed
    ensures WakeBlocked(Aside(k, d, pend), t) == Aside(WakeBlocked(k, t), d, pend)
  {
    assert T(Aside(k, d, pend), t) == T(k, t);
    UnlinkForeverBlind(k, t, d, pend);
    hide Unlink, MakeReady, PreemptRequest;
    var k1 := Unlink(k, t);
    assert T(Aside(k1, d, pend), t) == T(k1, t);
    SetTcbBlind(k1, t, T(k1, t).(signaled := true), d, pend);
    var k2 := SetTcb(k1, t, T(k1, t).(signaled := true));
    ReadyBlind(k2, t, d, pend);
    RequestBlind(MakeReady(k2, t), t, d, pend);
  }

  lemma UnlinkForeverBlind(k: State, t: Task, d: seq<DeltaList.Entry>, pend: bool)
    requires Live(k, t) && T(k, t).state == Blocked && !T(k, t).timed
    ensures Unlink(Aside(k, d, pend), t) == Aside(Unlink(k, t), d, pend)
  {
    UnlinkInSteps(k, t);
    UnlinkInSteps(Aside(k, d, pend), t);
    assert T(Aside(k, d, pend), t) == T(k, t);
    assert LeaveStateList(k, t) == k && LeaveStateList(Aside(k, d, pend), t) == Aside(k, d, pend);
    hide Unlink, LeaveStateList, LeaveAndClear, PriorityRecompute;
    if T(k, t).waitList.Some? {
      var q := T(k, t).waitList.value;
      LeaveClearBlind(k, q, t, d, pend);
      RecomputeBlind(LeaveAndClear(k, q, t), DebtOwner(k, t), MAX_DEPTH, d, pend);
    }
  }
}
