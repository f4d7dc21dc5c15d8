/** No lost wakeup. Wakes transfer nothing: a woken task must come back and take what it was woken for,
    and anything may happen first - another task barges in, the woken one times out, is paused, deleted
    or started by force. The invariant: where tasks wait, every unit that is free to take is matched by
    a task woken for that very list which has not yet used its wake. */
module Waking {
  import opened Sequences
  import opened Kernel
  import opened Links
  import opened Operations

  /** Units free to take by a task on list q: tokens, items, free slots, an unlocked mutex. */
  function Avail(k: State, q: WaitQ): nat {
    match q
    case OfMutex(m) => if M(k, m).locked then 0 else 1
    case OfSem(s) => S(k, s).count
    case Senders(i) => if Q(k, i).count < Q(k, i).capacity then Q(k, i).capacity - Q(k, i).count else 0
    case Receivers(i) => Q(k, i).count
  }

  /** The tasks still holding a wake from q. */
  function Woken(k: State, q: WaitQ): set<Task> { set t | t in k.tcb && k.tcb[t].wokenFrom == Some(q) }

  /** q's invariant with an allowance of d units. */
  ghost predicate NoLostAt(k: State, q: WaitQ, d: int) { WaitersOf(k, q) != [] ==> Avail(k, q) <= |Woken(k, q)| + d }

  ghost predicate NoLostBut(k: State, q: WaitQ, d: int) {
    NoLostAt(k, q, d) && forall x :: x != q ==> NoLostAt(k, x, 0)
  }

  /** No wakeup is lost. */
  ghost predicate NoLost(k: State) { forall q :: NoLostAt(k, q, 0) }

  /** An unused wake is held by a task that is on its way back into the same retry loop. */
  predicate WakeConsistent(r: Tcb) {
    r.wokenFrom.Some? ==> r.signaled && r.waitList.None? && r.state in {Ready, Running} && r.doing == r.wokenFrom
  }

  ghost predicate WakesOk(k: State) { forall t :: WakeConsistent(T(k, t)) }

  /** The invariant of the blocking protocol. */
  ghost predicate Protocol(k: State) { Linked(k) && WakesOk(k) && NoLost(k) }

  // ---------- how the two sides move ----------

  lemma ZeroAllowance(k: State, q: WaitQ)
    ensures NoLost(k) <==> NoLostBut(k, q, 0)
  {
  }

  lemma WaitingMeansQueued(k: State, q: WaitQ)
    requires Linked(k)
    ensures WaitersOf(k, q) != [] <==> exists t :: T(k, t).waitList == Some(q)
  {
    if WaitersOf(k, q) != [] {
      HeadWaits(k, q);
    }
    if t :| T(k, t).waitList == Some(q) {
      WaitsIsQueued(k, q, t);
    }
  }

  lemma WokenRewritten(k: State, k': State, t: Task, r: Tcb, q: WaitQ)
    requires Rewrites(k, k', t, r)
    ensures Woken(k', q) == if r.wokenFrom == Some(q) then Woken(k, q) + {t} else Woken(k, q) - {t}
  {
    forall x ensures x in Woken(k', q) <==> (if x == t then r.wokenFrom == Some(q) else x in Woken(k, q)) {
      assert T(k', x) == (if x == t then r else T(k, x)).(prio := T(k', x).prio);
    }
  }

  ghost predicate SameObjects(k: State, k': State) { k'.mutexes == k.mutexes && k'.sems == k.sems && k'.queues == k.queues }

  /** t may leave a list or stay as it is, and keeps its wake: nothing can be lost. */
  lemma QuietStep(k: State, k': State, t: Task, r: Tcb, q: WaitQ, d: int)
    requires Linked(k) && Linked(k') && Rewrites(k, k', t, r) && SameObjects(k, k')
    requires r.wokenFrom == T(k, t).wokenFrom && (r.waitList == T(k, t).waitList || r.waitList.None?)
    ensures NoLostBut(k, q, d) ==> NoLostBut(k', q, d)
  {
    forall x ensures (WaitersOf(k', x) != [] ==> WaitersOf(k, x) != []) && Woken(k', x) == Woken(k, x) && Avail(k', x) == Avail(k, x) {
      WokenRewritten(k, k', t, r, x);
      assert t in Woken(k, x) <==> T(k, t).wokenFrom == Some(x);
      StillWaiting(k, k', t, r, x);
    }
    hide Rewrites, Linked, Woken, Avail;
    if NoLostBut(k, q, d) {
      assert NoLostAt(k, q, d) && NoLostAt(k', q, d);
      forall x | x != q ensures NoLostAt(k', x, 0) { assert NoLostAt(k, x, 0); }
    }
  }

  lemma StillWaiting(k: State, k': State, t: Task, r: Tcb, q: WaitQ)
    requires Linked(k) && Linked(k') && Rewrites(k, k', t, r)
    requires r.waitList == T(k, t).waitList || r.waitList.None?
    ensures WaitersOf(k', q) != [] ==> WaitersOf(k, q) != []
  {
    WaitingMeansQueued(k, q);
    WaitingMeansQueued(k', q);
    hide Linked;
    if x :| T(k', x).waitList == Some(q) {
      assert T(k', x) == (if x == t then r else T(k, x)).(prio := T(k', x).prio);
      assert T(k, x).waitList == Some(q);
    }
  }

  lemma WakesRewritten(k: State, k': State, t: Task, r: Tcb)
    requires Rewrites(k, k', t, r) && WakesOk(k) && WakeConsistent(r)
    ensures WakesOk(k')
  {
    forall x ensures WakeConsistent(T(k', x)) {
      assert T(k', x) == (if x == t then r else T(k, x)).(prio := T(k', x).prio);
      assert WakeConsistent(T(k, x));
    }
  }

  /** The quiet step as the protocol sees it. */
  lemma QuietProtocol(k: State, k': State, t: Task, r: Tcb)
    requires Protocol(k) && Linked(k') && Rewrites(k, k', t, r) && SameObjects(k, k')
    requires r.wokenFrom == T(k, t).wokenFrom && (r.waitList == T(k, t).waitList || r.waitList.None?)
    requires WakeConsistent(r)
    ensures Protocol(k')
  {
    var q := OfSem(0);
    ZeroAllowance(k, q);
    ZeroAllowance(k', q);
    hide Linked, NoLost, NoLostBut, Rewrites;
    QuietStep(k, k', t, r, q, 0);
    WakesRewritten(k, k', t, r);
  }

  lemma SpentAt(k: State, k': State, t: Task, r: Tcb, x: WaitQ)
    requires Linked(k) && Linked(k') && Rewrites(k, k', t, r) && SameObjects(k, k') && r.wokenFrom.None?
    requires r.waitList == T(k, t).waitList || r.waitList.None?
    ensures WaitersOf(k', x) != [] ==> WaitersOf(k, x) != []
    ensures Woken(k', x) == Woken(k, x) - {t} && Avail(k', x) == Avail(k, x)
    ensures |Woken(k', x)| == if t in Woken(k, x) then |Woken(k, x)| - 1 else |Woken(k, x)|
    ensures t in Woken(k, x) ==> T(k, t).wokenFrom == Some(x)
  {
    assert Avail(k', x) == Avail(k, x);
    hide Avail, Linked;
    WokenRewritten(k, k', t, r, x);
    StillWaiting(k, k', t, r, x);
    hide Rewrites;
    if t !in Woken(k, x) { assert Woken(k, x) - {t} == Woken(k, x); }
  }

  /** t gives up a wake it held from q: one unit of q may now be unmatched, or none if it held none. */
  lemma SpendStep(k: State, k': State, t: Task, r: Tcb, q: WaitQ, d: int)
    requires Linked(k) && Linked(k') && Rewrites(k, k', t, r) && SameObjects(k, k')
    requires r.wokenFrom.None? && (T(k, t).wokenFrom == Some(q) || T(k, t).wokenFrom.None?)
    requires r.waitList == T(k, t).waitList || r.waitList.None?
    requires NoLostBut(k, q, d)
    ensures NoLostBut(k', q, if T(k, t).wokenFrom.None? then d else d + 1)
  {
    hide Rewrites, Linked, Woken, WaitersOf, Avail, T, SameObjects;
    forall x | x != q ensures NoLostAt(k', x, 0) {
      SpentAt(k, k', t, r, x);
      assert NoLostAt(k, x, 0);
    }
    SpentAt(k, k', t, r, q);
  }

  /** Waking the head of q matches one more unit - unless nobody waits, and then none needs matching. */
  lemma WakeOneStep(k: State, q: WaitQ)
    requires Linked(k) && WakesOk(k) && NoLostBut(k, q, 1)
    ensures Protocol(WakeOne(k, q))
  {
    WakeOneFrame(k, q);
    var k' := WakeOne(k, q);
    if WaitersOf(k, q) == [] {
      forall x ensures NoLostAt(k', x, 0) {}
    } else {
      var t := WaitersOf(k, q)[0];
      var r := Signaled(T(k, t), q);
      HeadWaits(k, q);
      EdgesHold(k, t);
      BecomesRewrites(k, k', t, r);
      BecomesAt(k, k', t, r);
      assert WakeConsistent(T(k, t));
      hide Linked, Becomes, WakeOne;
      WakesRewritten(k, k', t, r);
      WokenGrows(k, k', t, r, q);
    }
  }

  lemma WokenGrows(k: State, k': State, t: Task, r: Tcb, q: WaitQ)
    requires Linked(k) && Linked(k') && Rewrites(k, k', t, r) && SameObjects(k, k') && NoLostBut(k, q, 1)
    requires T(k, t).wokenFrom.None? && r.wokenFrom == Some(q) && r.waitList.None?
    ensures NoLost(k')
  {
    hide Linked, Rewrites;
    forall x ensures NoLostAt(k', x, 0) {
      StillWaiting(k, k', t, r, x);
      WokenRewritten(k, k', t, r, x);
      assert t !in Woken(k, x);
      assert Avail(k', x) == Avail(k, x);
      hide Avail;
      if x != q { assert Woken(k, x) - {t} == Woken(k, x) && NoLostAt(k, x, 0); }
      else { assert |Woken(k, q) + {t}| == |Woken(k, q)| + 1; }
    }
  }

  // ---------- the operations ----------

  /** The task context every blocking call runs in: c is running, and inside no other blocking call. */
  predicate Caller(k: State, c: Task, q: WaitQ) {
    && k.current == Some(c) && c != IDLE && Live(k, c) && T(k, c).state == Running
    && (T(k, c).doing.None? || T(k, c).doing == Some(q))
  }

  lemma CallerFacts(k: State, c: Task, q: WaitQ)
    requires Protocol(k) && Caller(k, c, q)
    ensures T(k, c).waitList.None? && T(k, c).blockedOn.None? && (T(k, c).wokenFrom.None? || T(k, c).wokenFrom == Some(q))
    ensures WaitersOf(k, q) != [] ==> c !in WaitersOf(k, q)
  {
    EdgesHold(k, c);
    assert WakeConsistent(T(k, c));
    WaitsIsQueued(k, q, c);
  }

  /** Counters move: only lists of the objects touched are affected. */
  lemma CountersStep(k: State, k': State, q: WaitQ, d: int)
    requires Protocol(k) && OnlyCounters(k, k')
    requires Avail(k', q) <= Avail(k, q) + d
    requires forall x :: x != q ==> Avail(k', x) <= Avail(k, x)
    ensures Linked(k') && WakesOk(k') && NoLostBut(k', q, d)
  {
    OnlyCountersLinked(k, k');
    assert k'.tcb == k.tcb && k'.waiters == k.waiters;
    forall x ensures WaitersOf(k', x) == WaitersOf(k, x) && Woken(k', x) == Woken(k, x) && NoLostAt(k, x, 0) {}
    forall x | x != q ensures NoLostAt(k', x, 0) { assert NoLostAt(k, x, 0); }
    assert NoLostAt(k, q, 0) && NoLostAt(k', q, d);
    forall t ensures WakeConsistent(T(k', t)) { assert WakeConsistent(T(k, t)); }
  }

  lemma SemGiveProtocol(k: State, s: nat)
    requires Protocol(k)
    ensures Protocol(SemGive(k, s).0)
  {
    if S(k, s).count < S(k, s).max {
      var k1 := k.(sems := k.sems[s := S(k, s).(count := S(k, s).count + 1)]);
      forall x | x != OfSem(s) ensures Avail(k1, x) <= Avail(k, x) {}
      CountersStep(k, k1, OfSem(s), 1);
      hide Protocol, Linked, WakesOk, NoLostBut, WakeOne;
      WakeOneStep(k1, OfSem(s));
    }
  }

  /** Closing a wait on q: fine if q has a unit to spare or nothing left to take. */
  lemma WaitEndStep(k: State, c: Task, q: WaitQ, d: int)
    requires Linked(k) && WakesOk(k) && NoLostBut(k, q, d)
    requires k.current == Some(c) && Live(k, c) && T(k, c).waitList.None?
    requires T(k, c).wokenFrom.None? || T(k, c).wokenFrom == Some(q)
    requires d <= (if T(k, c).wokenFrom.None? then 0 else -1) || Avail(k, q) == 0
    ensures Protocol(WaitEnd(k, false))
  {
    var k' := WaitEnd(k, false);
    WaitEndFrame(k, c);
    BecomesRewrites(k, k', c, Finished(T(k, c)));
    BecomesAt(k, k', c, Finished(T(k, c)));
    hide Linked, Becomes, WaitEnd;
    WakesRewritten(k, k', c, Finished(T(k, c)));
    SpendStep(k, k', c, Finished(T(k, c)), q, d);
    hide Rewrites;
    assert Avail(k', q) == Avail(k, q);
    forall x ensures NoLostAt(k', x, 0) {}
  }

  /** A task joins q because q had nothing to give. */
  lemma WaitBeginStep(k: State, k0: State, c: Task, q: WaitQ, w: Wait)
    requires Protocol(k) && Caller(k, c, q) && Avail(k, q) == 0
    requires Becomes(k, k0, c, T(k0, c)) && T(k0, c).wokenFrom == T(k, c).wokenFrom
    requires Linked(WaitBegin(k0, c, q, w)) && Becomes(k0, WaitBegin(k0, c, q, w), c, Queueing(T(k0, c), q, w))
    ensures Protocol(WaitBegin(k0, c, q, w))
  {
    var k' := WaitBegin(k0, c, q, w);
    var r := Queueing(T(k0, c), q, w);
    CallerFacts(k, c, q);
    BecomesTwice(k, k0, k', c, T(k0, c), r);
    BecomesRewrites(k, k', c, r);
    BecomesAt(k, k', c, r);
    hide Becomes, WaitBegin, Linked, Rewrites;
    WakesRewritten(k, k', c, r);
    hide WakesOk;
    JoinStep(k, k', c, r, q);
  }

  lemma JoinStep(k: State, k': State, c: Task, r: Tcb, q: WaitQ)
    requires Linked(k) && Linked(k') && NoLost(k) && Rewrites(k, k', c, r) && SameObjects(k, k') && Avail(k, q) == 0
    requires r.waitList == Some(q) && (T(k, c).wokenFrom.None? || T(k, c).wokenFrom == Some(q)) && r.wokenFrom.None?
    ensures NoLost(k')
  {
    forall x ensures NoLostAt(k', x, 0) {
      WokenRewritten(k, k', c, r, x);
      JoinedWaiting(k, k', c, r, q, x);
      hide Linked, Rewrites;
      assert Avail(k', x) == Avail(k, x);
      assert NoLostAt(k, x, 0);
      if x != q {
        assert c !in Woken(k, x);
        assert Woken(k, x) - {c} == Woken(k, x);
      }
    }
  }

  lemma JoinedWaiting(k: State, k': State, c: Task, r: Tcb, q: WaitQ, x: WaitQ)
    requires Linked(k) && Linked(k') && Rewrites(k, k', c, r) && r.waitList == Some(q)
    ensures x != q && WaitersOf(k', x) != [] ==> WaitersOf(k, x) != []
  {
    if x != q {
      WaitingMeansQueued(k, x);
      WaitingMeansQueued(k', x);
      hide Linked;
      if t :| T(k', t).waitList == Some(x) {
        assert T(k', t) == (if t == c then r else T(k, t)).(prio := T(k', t).prio);
        assert T(k, t).waitList == Some(x);
      }
    }
  }

  /** Joining a list that is no mutex's. */
  lemma PlainWaitStep(k: State, c: Task, q: WaitQ, w: Wait)
    requires Protocol(k) && Caller(k, c, q) && Avail(k, q) == 0 && !q.OfMutex?
    ensures Protocol(WaitBegin(k, c, q, w))
    ensures Becomes(k, WaitBegin(k, c, q, w), c, Queueing(T(k, c), q, w))
  {
    CallerFacts(k, c, q);
    EdgesHold(k, c);
    assert SetTcb(k, c, T(k, c).(blockedOn := None)) == k by { assert k.tcb == k.tcb[c := T(k, c).(blockedOn := None)]; }
    BecomesItself(k, c);
    WaitBeginFrame(k, c, q, w);
    hide Linked, Becomes, WaitBegin;
    WaitBeginStep(k, k, c, q, w);
  }

  lemma GiveUpStep(k: State, c: Task, q: WaitQ)
    requires Protocol(k) && Caller(k, c, q) && (Avail(k, q) == 0 || T(k, c).wokenFrom.None?)
    ensures Protocol(WaitEnd(k, false))
  {
    CallerFacts(k, c, q);
    ZeroAllowance(k, q);
    hide Linked, NoLostBut, NoLost, WaitEnd;
    WaitEndStep(k, c, q, 0);
  }

  /** A unit is taken, by the caller or by an interrupt: one fewer to match. */
  lemma TakeStep(k: State, k1: State, c: Task, q: WaitQ)
    requires Protocol(k) && Caller(k, c, q) && Linked(k1) && WakesOk(k1) && NoLostBut(k1, q, -1)
    requires k1.current == k.current && T(k1, c).waitList.None? && Live(k1, c) && T(k1, c).wokenFrom == T(k, c).wokenFrom
    ensures Protocol(WaitEnd(k1, false))
  {
    CallerFacts(k, c, q);
    hide Linked, NoLostBut, NoLost, WaitEnd;
    WaitEndStep(k1, c, q, -1);
  }

  lemma SlackIsFine(k: State, q: WaitQ, d: int)
    requires NoLostBut(k, q, d) && d <= 0
    ensures NoLost(k)
  {
  }

  /** os_sem_take, from a task or (isr) from an interrupt, on every pass of its loop. */
  lemma SemTakeProtocol(k: State, c: Task, s: nat, w: Wait, isr: bool)
    requires Protocol(k) && (!isr ==> Caller(k, c, OfSem(s)))
    ensures Protocol(SemTake(k, c, s, w, isr).0)
  {
    var q := OfSem(s);
    if S(k, s).count > 0 {
      var k1 := k.(sems := k.sems[s := S(k, s).(count := S(k, s).count - 1)]);
      forall x | x != q ensures Avail(k1, x) <= Avail(k, x) {}
      CountersStep(k, k1, q, -1);
      assert k1.tcb == k.tcb && k1.current == k.current;
      if !isr { CallerFacts(k, c, q); }
      assert T(k1, c) == T(k, c);
      hide Linked, NoLostBut, WaitEnd;
      if isr { SlackIsFine(k1, q, -1); assert WaitEnd(k1, true) == k1 by { IsrEndsNothing(k1); } } else { TakeStep(k, k1, c, q); }
    } else if isr {
      IsrEndsNothing(k);
    } else if w.Nothing? || !CanBlock(k, isr) || w.Spent? {
      hide Protocol, WaitEnd;
      GiveUpStep(k, c, q);
    } else {
      hide Protocol, WaitBegin;
      PlainWaitStep(k, c, q, w);
    }
  }

  lemma IsrEndsNothing(k: State)
    ensures WaitEnd(k, true) == k
  {
  }
}
