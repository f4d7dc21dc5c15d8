/** Priority inheritance: every task's effective priority is the maximum of its base priority and of
    the waiters of every mutex it owns, after every operation of the kernel. */
module Inheritance {
  import opened Sequences
  import opened Kernel
  import opened Links

  /** Every live task outside xs runs at the priority inheritance owes it. */
  ghost predicate SettledBut(k: State, xs: set<Task>) {
    forall t :: t in k.tcb && t !in xs ==> T(k, t).prio == Effective(k, t)
  }

  /** The invariant of priority inheritance. */
  ghost predicate Settled(k: State) { SettledBut(k, {}) }

  /** The wait chain that starts at t is acyclic and names at most n tasks. */
  predicate ChainEnds(k: State, t: Task, n: nat)
    decreases n
  {
    !Live(k, t) || (n > 0 && (T(k, t).blockedOn.None? || ChainEnds(k, NextTask(k, t), n - 1)))
  }

  /** The task that t's wait is behind; IDLE when t waits for no mutex or the mutex is unowned. */
  function NextTask(k: State, t: Task): Task {
    match T(k, t).blockedOn case None => IDLE case Some(m) => M(k, m).owner
  }

  ghost predicate ChainsShort(k: State) { forall t :: ChainEnds(k, t, MAX_DEPTH) }

  // ---------- the independent reading of an effective priority ----------

  /** p is the maximum of t's base priority and of EVERY waiter on EVERY mutex t owns. */
  ghost predicate IsOwed(k: State, t: Task, p: nat) {
    && p >= T(k, t).base
    && (forall m, w :: m in T(k, t).owned && w in WaitersOf(k, OfMutex(m)) ==> p >= T(k, w).prio)
    && (p == T(k, t).base ||
        exists m, w :: m in T(k, t).owned && w in WaitersOf(k, OfMutex(m)) && p == T(k, w).prio)
  }

  ghost predicate IsMaxHead(k: State, ms: seq<Mutex>, acc: nat, p: nat) {
    && p >= acc
    && (forall m :: m in ms ==> p >= HeadPrio(k, m))
    && (p == acc || exists m :: m in ms && p == HeadPrio(k, m))
  }

  lemma {:induction false} MaxHeadIsMax(k: State, ms: seq<Mutex>, acc: nat)
    ensures IsMaxHead(k, ms, acc, MaxHead(k, ms, acc))
  {
    if ms != [] {
      var next := if HeadPrio(k, ms[0]) > acc then HeadPrio(k, ms[0]) else acc;
      MaxHeadIsMax(k, ms[1..], next);
      var p := MaxHead(k, ms, acc);
      assert p == MaxHead(k, ms[1..], next);
      forall m | m in ms ensures p >= HeadPrio(k, m) {
        if m != ms[0] { assert m in ms[1..]; }
      }
      if p != acc {
        if p == next { assert ms[0] in ms && p == HeadPrio(k, ms[0]); }
        else {
          var m :| m in ms[1..] && p == HeadPrio(k, m);
          assert m in ms;
        }
      }
    }
  }

  /** The running maximum over list heads is what inheritance owes, whatever the order of the owned
      list, as long as waiter lists are sorted. */
  lemma EffectiveIsOwed(k: State, t: Task, p: nat)
    requires Sorted(k)
    ensures IsOwed(k, t, p) <==> p == Effective(k, t)
  {
    MaxHeadIsMax(k, T(k, t).owned, T(k, t).base);
    var e := Effective(k, t);
    forall m, w | m in T(k, t).owned && w in WaitersOf(k, OfMutex(m))
      ensures e >= T(k, w).prio
    {
      var ws := WaitersOf(k, OfMutex(m));
      assert SortedList(k.tcb, ws);
      HeadIsHighest(k.tcb, ws, w);
      assert HeadPrio(k, m) == T(k, ws[0]).prio;
    }
    if e != T(k, t).base {
      var m :| m in T(k, t).owned && e == HeadPrio(k, m);
      assert WaitersOf(k, OfMutex(m))[0] in WaitersOf(k, OfMutex(m));
    }
  }

  lemma {:induction false} MaxHeadSame(k: State, k': State, ms: seq<Mutex>, acc: nat)
    requires forall m :: m in ms ==> HeadPrio(k', m) == HeadPrio(k, m)
    ensures MaxHead(k', ms, acc) == MaxHead(k, ms, acc)
  {
    if ms != [] {
      assert ms[0] in ms;
      MaxHeadSame(k, k', ms[1..], if HeadPrio(k, ms[0]) > acc then HeadPrio(k, ms[0]) else acc);
    }
  }

  /** Same owned mutexes, base and heads: the same priority is owed. */
  lemma OwedSame(k: State, k': State, o: Task)
    requires T(k', o).owned == T(k, o).owned && T(k', o).base == T(k, o).base
    requires forall m :: m in T(k, o).owned ==> HeadPrio(k', m) == HeadPrio(k, m)
    ensures Effective(k', o) == Effective(k, o)
  {
    MaxHeadSame(k, k', T(k, o).owned, T(k, o).base);
  }

  /** Nothing inheritance reads differs. */
  ghost predicate Alike(k: State, k': State) {
    && k'.tcb.Keys == k.tcb.Keys && k'.waiters == k.waiters
    && (forall t :: T(k', t).prio == T(k, t).prio && T(k', t).base == T(k, t).base && T(k', t).owned == T(k, t).owned)
  }

  lemma AlikeSettled(k: State, k': State, xs: set<Task>)
    requires Alike(k, k') && SettledBut(k, xs)
    ensures SettledBut(k', xs)
  {
    forall m ensures HeadPrio(k', m) == HeadPrio(k, m) {
      assert WaitersOf(k', OfMutex(m)) == WaitersOf(k, OfMutex(m));
    }
    forall t | t in k'.tcb && t !in xs ensures T(k', t).prio == Effective(k', t) {
      OwedSame(k, k', t);
    }
  }

  // ---------- one priority change, and the walk ----------

  /** Only the owner of the mutex t waits on can owe something different afterwards. */
  lemma PrioritySetOwed(k: State, t: Task, p: nat, o: Task)
    requires Linked(k) && Live(k, t) && o != IDLE && NextTask(k, t) != o
    ensures Effective(EffectivePrioritySet(k, t, p), o) == Effective(k, o)
  {
    hide EffectivePrioritySet, Sorted, OnlyPriorities;
    PrioritySetFrame(k, t, p);
    var k' := EffectivePrioritySet(k, t, p);
    forall m | m in T(k, o).owned ensures HeadPrio(k', m) == HeadPrio(k, m) {
      assert Held(k, o, m) > 0;
      assert EdgeConsistent(T(k, t));
      assert T(k, t).waitList != Some(OfMutex(m));
      assert WaitersOf(k', OfMutex(m)) == WaitersOf(k, OfMutex(m));
      assert Queued(k, OfMutex(m), t) == 0;
    }
    OwedSame(k, k', o);
  }

  /** The task at which a walk of n links stops short; IDLE when the chain ends first. */
  function StopsAt(k: State, t: Task, n: nat): Task
    decreases n
  {
    if !Live(k, t) then IDLE
    else if n == 0 then t
    else if T(k, t).blockedOn.None? then IDLE
    else StopsAt(k, NextTask(k, t), n - 1)
  }

  /** x is among the tasks a walk of n links from t visits, or is the one it stops at. */
  predicate OnChain(k: State, t: Task, x: Task, n: nat)
    decreases n
  {
    Live(k, t) && (t == x || (n > 0 && T(k, t).blockedOn.Some? && OnChain(k, NextTask(k, t), x, n - 1)))
  }

  lemma {:induction false} WalksFollowEdges(k: State, k': State, t: Task, x: Task, n: nat)
    requires k'.tcb.Keys == k.tcb.Keys && k'.mutexes == k.mutexes
    requires forall y :: T(k', y).blockedOn == T(k, y).blockedOn
    ensures StopsAt(k', t, n) == StopsAt(k, t, n) && ChainEnds(k', t, n) == ChainEnds(k, t, n)
    ensures OnChain(k', t, x, n) == OnChain(k, t, x, n)
    decreases n
  {
    assert T(k', t).blockedOn == T(k, t).blockedOn;
    if n > 0 {
      WalksFollowEdges(k, k', NextTask(k, t), x, n - 1);
    }
  }

  lemma OnlyPrioritiesEdges(k: State, k': State)
    requires OnlyPriorities(k, k')
    ensures k'.tcb.Keys == k.tcb.Keys && k'.mutexes == k.mutexes
    ensures forall y :: T(k', y).blockedOn == T(k, y).blockedOn && T(k', y).owned == T(k, y).owned && T(k', y).base == T(k, y).base
  {
    forall y ensures T(k', y).blockedOn == T(k, y).blockedOn && T(k', y).owned == T(k, y).owned && T(k', y).base == T(k, y).base {
      OnlyPrioritiesTouch(k, k', y);
    }
    OnlyPrioritiesTouch(k, k', IDLE);
  }

  lemma {:induction false} ShortChainsStopNowhere(k: State, t: Task, n: nat)
    requires IDLE !in k.tcb
    ensures ChainEnds(k, t, n) <==> StopsAt(k, t, n) == IDLE
    decreases n
  {
    if n > 0 {
      ShortChainsStopNowhere(k, NextTask(k, t), n - 1);
    }
  }

  /** One link of the walk moves the unsettled spot to the next task of the chain. */
  lemma RecomputeStep(k: State, t: Task, xs: set<Task>)
    requires Linked(k) && SettledBut(k, xs + {t}) && Live(k, t) && t !in xs
    ensures SettledBut(EffectivePrioritySet(k, t, Effective(k, t)), xs + {NextTask(k, t)})
  {
    assert WaitersLinked(k);
    hide EffectivePrioritySet, Effective, Linked, OnlyPriorities;
    var p := Effective(k, t);
    var k1 := EffectivePrioritySet(k, t, p);
    PrioritySetFrame(k, t, p);
    forall x | x in k1.tcb && x !in xs + {NextTask(k, t)} ensures T(k1, x).prio == Effective(k1, x) {
      PrioritySetOwed(k, t, p, x);
    }
  }

  /** The chain walk, whatever the chain: the unsettled spot moves to the task the walk stopped at,
      and tasks off the chain are not touched. */
  lemma {:induction false} RecomputeMovesTheGap(k: State, t: Task, n: nat, xs: set<Task>)
    requires Linked(k) && SettledBut(k, xs + {t})
    requires forall x :: x in xs ==> !OnChain(k, t, x, n)
    ensures SettledBut(PriorityRecompute(k, t, n), xs + {StopsAt(k, t, n)})
    decreases n
  {
    hide EffectivePrioritySet, Effective, OnlyPriorities, Linked;
    if n > 0 && Live(k, t) {
      var k1 := EffectivePrioritySet(k, t, Effective(k, t));
      PrioritySetLinked(k, t, Effective(k, t));
      OnlyPrioritiesEdges(k, k1);
      assert t !in xs;
      RecomputeStep(k, t, xs);
      hide SettledBut;
      var next := NextTask(k, t);
      if T(k, t).blockedOn.Some? {
        forall x | x in xs + {t} ensures !OnChain(k1, next, x, n - 1) || x == t { WalksFollowEdges(k, k1, next, x, n - 1); }
        WalksFollowEdges(k, k1, next, t, n - 1);
        RecomputeMovesTheGap(k1, next, n - 1, xs);
      }
    }
  }

  lemma {:induction false} RecomputeElsewhere(k: State, t: Task, n: nat, x: Task)
    requires Linked(k) && Live(k, x) && !OnChain(k, t, x, n)
    ensures T(PriorityRecompute(k, t, n), x).prio == T(k, x).prio
    ensures Effective(PriorityRecompute(k, t, n), x) == Effective(k, x)
    decreases n
  {
    assert WaitersLinked(k) && x != IDLE;
    hide EffectivePrioritySet, Effective, OnlyPriorities, Linked;
    if n > 0 && Live(k, t) {
      var k1 := EffectivePrioritySet(k, t, Effective(k, t));
      PrioritySetFrame(k, t, Effective(k, t));
      PrioritySetLinked(k, t, Effective(k, t));
      OnlyPrioritiesEdges(k, k1);
      PrioritySetOwed(k, t, Effective(k, t), x);
      if T(k, t).blockedOn.Some? {
        WalksFollowEdges(k, k1, NextTask(k, t), x, n - 1);
        RecomputeElsewhere(k1, NextTask(k, t), n - 1, x);
      }
    }
  }

  /** On a short acyclic chain the walk is complete: afterwards every task is settled. */
  lemma RecomputeSettles(k: State, t: Task)
    requires Linked(k) && SettledBut(k, {t}) && ChainEnds(k, t, MAX_DEPTH)
    ensures Settled(PriorityRecompute(k, t, MAX_DEPTH))
  {
    assert WaitersLinked(k);
    hide OwnersLinked, PriorityRecompute;
    var k' := PriorityRecompute(k, t, MAX_DEPTH);
    RecomputeFrame(k, t, MAX_DEPTH);
    OnlyPrioritiesEdges(k, k');
    assert {} + {t} == {t};
    RecomputeMovesTheGap(k, t, MAX_DEPTH, {});
    ShortChainsStopNowhere(k, t, MAX_DEPTH);
  }

  // ---------- leaving a list ----------

  /** Wait edges may go, or lose their owner; none is new. */
  ghost predicate EdgesShrink(k: State, k': State) {
    && k'.tcb.Keys <= k.tcb.Keys
    && (forall x :: T(k', x).blockedOn.None? || (T(k', x).blockedOn == T(k, x).blockedOn &&
                                                 (NextTask(k', x) == NextTask(k, x) || !Live(k', NextTask(k', x)))))
  }

  lemma {:induction false} ChainsShrink(k: State, k': State, t: Task, n: nat)
    requires EdgesShrink(k, k') && ChainEnds(k, t, n)
    ensures ChainEnds(k', t, n)
    decreases n
  {
    assert T(k', t).blockedOn.None? || NextTask(k', t) == NextTask(k, t) || !Live(k', NextTask(k', t));
    if Live(k', t) && T(k', t).blockedOn.Some? && NextTask(k', t) == NextTask(k, t) {
      ChainsShrink(k, k', NextTask(k, t), n - 1);
    }
  }

  lemma ShortStaysShort(k: State, k': State)
    requires EdgesShrink(k, k') && ChainsShort(k)
    ensures ChainsShort(k')
  {
    forall t ensures ChainEnds(k', t, MAX_DEPTH) { ChainsShrink(k, k', t, MAX_DEPTH); }
  }

  lemma LeaveUnsettlesTheOwner(k: State, q: WaitQ, t: Task)
    requires Linked(k) && Settled(k) && Live(k, t) && T(k, t).waitList == Some(q)
    ensures SettledBut(LeaveAndClear(k, q, t), {DebtOwner(k, t)})
    ensures DebtOwner(k, t) == NextTask(k, t)
  {
    var k' := LeaveAndClear(k, q, t);
    assert EdgeConsistent(T(k, t));
    assert DebtOwner(k, t) == NextTask(k, t);
    hide Without;
    forall x | x in k'.tcb && x != DebtOwner(k, t) ensures T(k', x).prio == Effective(k', x) {
      forall m | m in T(k, x).owned ensures HeadPrio(k', m) == HeadPrio(k, m) {
        assert Held(k, x, m) > 0;
        assert q != OfMutex(m);
        assert WaitersOf(k', OfMutex(m)) == WaitersOf(k, OfMutex(m));
      }
      OwedSame(k, k', x);
    }
  }

  lemma LeaveShrinks(k: State, q: WaitQ, t: Task)
    requires Live(k, t)
    ensures EdgesShrink(k, LeaveAndClear(k, q, t))
  {
    hide Without;
  }

  lemma ShrinkSame(k: State, k1: State, k2: State)
    requires EdgesShrink(k1, k2) && k1.tcb == k.tcb && k1.mutexes == k.mutexes
    ensures EdgesShrink(k, k2)
  {
    forall x ensures T(k1, x) == T(k, x) && NextTask(k1, x) == NextTask(k, x) {}
  }

  /** A waiter that leaves its queue for any reason - signal, timeout, forced wake, pause, delete -
      takes its boost with it, all along the chain. */
  lemma UnlinkSettles(k: State, t: Task)
    requires Linked(k) && Settled(k) && Live(k, t) && ChainsShort(k)
    ensures Settled(Unlink(k, t))
  {
    hide Unlink, LeaveStateList, PriorityRecompute, LeaveAndClear, ChainEnds;
    UnlinkInSteps(k, t);
    var k1 := LeaveStateList(k, t);
    OnlyListsLinked(k, k1);
    AlikeSettled(k, k1, {});
    if T(k, t).waitList.Some? {
      var q := T(k, t).waitList.value;
      LeaveUnsettlesTheOwner(k1, q, t);
      LeaveAndClearFrame(k1, q, t);
      var k2 := LeaveAndClear(k1, q, t);
      var o := DebtOwner(k, t);
      assert DebtOwner(k1, t) == o;
      LeaveShrinks(k1, q, t);
      ShrinkSame(k, k1, k2);
      ChainsShrink(k, k2, o, MAX_DEPTH);
      if o != 0 { RecomputeSettles(k2, o); }
    }
  }
}
