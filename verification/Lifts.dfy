/** How far a lock lifts: every task the new waiter waits behind, link by link, and a run that does it. */
module Lifts {
  import opened Sequences
  import opened Kernel
  import opened Links
  import opened Operations
  import opened Inheritance
  import opened Scheduling
  import opened Waking
  import opened NoLostWakeups
  import opened Timeouts
  import opened Runs
  import opened Outcomes
  import FullQueues

  /** The task j mutexes further along the wait chain from t. */
  function Along(k: State, t: Task, j: nat): Option<Task>
    decreases j
  {
    if !Live(k, t) then None
    else if j == 0 then Some(t)
    else match T(k, t).blockedOn case None => None case Some(m) => Along(k, M(k, m).owner, j - 1)
  }

  /** The same edges, the same chain. */
  ghost predicate SameEdges(k: State, k': State) {
    k'.tcb.Keys == k.tcb.Keys && k'.mutexes == k.mutexes && forall t :: T(k', t).blockedOn == T(k, t).blockedOn
  }

  lemma {:induction false} AlongSame(k: State, k': State, t: Task, j: nat)
    requires SameEdges(k, k')
    ensures Along(k', t, j) == Along(k, t, j)
    decreases j
  {
    if j > 0 && Live(k, t) && T(k, t).blockedOn.Some? {
      assert T(k', t).blockedOn == T(k, t).blockedOn;
      AlongSame(k, k', M(k, T(k, t).blockedOn.value).owner, j - 1);
    }
  }

  lemma PrioritySetEdges(k: State, t: Task, p: nat)
    requires Linked(k) && Live(k, t)
    ensures SameEdges(k, EffectivePrioritySet(k, t, p))
  {
    hide EffectivePrioritySet;
    PrioritySetFrame(k, t, p);
    forall x ensures T(EffectivePrioritySet(k, t, p), x).blockedOn == T(k, x).blockedOn {}
  }

  /** One task's priority set: it has the new one, nobody else's changed, and the wait edges stand. */
  ghost predicate SetTo(k: State, k1: State, t: Task, p: nat) {
    Linked(k1) && SameEdges(k, k1) && T(k1, t).prio == p && forall o :: o != t ==> T(k1, o).prio == T(k, o).prio
  }

  lemma SetsTo(k: State, t: Task, p: nat)
    requires Linked(k) && Live(k, t)
    ensures SetTo(k, EffectivePrioritySet(k, t, p), t, p)
  {
    hide Linked, EffectivePrioritySet, SameEdges;
    PrioritySetLinked(k, t, p);
    PrioritySetEdges(k, t, p);
    forall o ensures o != t ==> T(EffectivePrioritySet(k, t, p), o).prio == T(k, o).prio { FloorStep(k, t, p, o); }
    FloorStep(k, t, p, t);
  }

  lemma SetToMeans(k: State, k1: State, t: Task, p: nat, o: Task)
    requires SetTo(k, k1, t, p)
    ensures Linked(k1) && SameEdges(k, k1) && T(k1, t).prio == p && (o != t ==> T(k1, o).prio == T(k, o).prio)
    ensures T(k1, t).blockedOn == T(k, t).blockedOn && k1.mutexes == k.mutexes && k1.tcb.Keys == k.tcb.Keys
  {
    hide Linked;
  }

  lemma AlongIs(k: State, t: Task, j: nat)
    ensures Live(k, t) ==> Along(k, t, j) == if j == 0 then Some(t) else if T(k, t).blockedOn.None? then None
                                             else Along(k, M(k, T(k, t).blockedOn.value).owner, j - 1)
    ensures Along(k, t, j).Some? ==> Live(k, t)
  {
  }

  /** The walk brings every task on its way, up to its depth, to the priority of the waiter it started for. */
  lemma {:induction false} RecomputeLiftsChain(k: State, prev: Task, m: Mutex, n: nat, j: nat, x: Task, p: nat)
    requires Linked(k) && T(k, prev).waitList == Some(OfMutex(m)) && T(k, prev).prio >= p
    requires j < n && Along(k, M(k, m).owner, j) == Some(x)
    ensures T(PriorityRecompute(k, M(k, m).owner, n), x).prio >= p
    decreases n
  {
    hide *;
    var t := M(k, m).owner;
    AlongIs(k, t, j);
    WalkIs(k, t, n);
    OwesWaiter(k, m, prev);
    var e := Effective(k, t);
    var k1 := EffectivePrioritySet(k, t, e);
    SetsTo(k, t, e);
    SetToMeans(k, k1, t, e, x);
    if T(k1, t).blockedOn.Some? {
      var next := T(k1, t).blockedOn.value;
      EdgeIsWait(k1, t);
      SameOwner(k, k1, next);
      if j == 0 {
        RecomputeKeepsFloor(k1, t, next, n - 1, x, p);
      } else {
        AlongSame(k, k1, M(k, next).owner, j - 1);
        RecomputeLiftsChain(k1, t, next, n - 1, j - 1, x, p);
      }
    }
  }

  lemma SameOwner(k: State, k1: State, m: Mutex)
    requires k1.mutexes == k.mutexes
    ensures M(k1, m) == M(k, m)
  {
  }

  lemma InheritIs(k: State, c: Task, o: Task)
    requires Live(k, c) && Live(k, o) && T(k, c).prio > T(k, o).prio && c != o
    ensures var k1 := SetTcb(k, c, T(k, c).(piOwner := o)); var k2 := EffectivePrioritySet(k1, o, T(k, c).prio);
            PriorityInherit(k, c, o) ==
            if T(k2, o).blockedOn.None? then k2 else PriorityRecompute(k2, M(k2, T(k2, o).blockedOn.value).owner, MAX_DEPTH)
    ensures T(SetTcb(k, c, T(k, c).(piOwner := o)), c).prio == T(k, c).prio && Live(SetTcb(k, c, T(k, c).(piOwner := o)), o)
  {
    hide EffectivePrioritySet, PriorityRecompute;
  }

  /** A rewrite of one control block that leaves its wait edge. */
  lemma RewriteEdges(k: State, c: Task, r: Tcb)
    requires Live(k, c) && r.blockedOn == T(k, c).blockedOn
    ensures SameEdges(k, SetTcb(k, c, r))
  {
  }

  lemma InheritLiftsChain(k: State, c: Task, o: Task, j: nat, x: Task)
    requires Linked(k) && Live(k, c) && Live(k, o) && EdgeOf(T(k, c).doing).Some? && c != o && T(k, c).prio > T(k, o).prio
    requires 1 <= j <= MAX_DEPTH && Along(k, o, j) == Some(x)
    ensures T(PriorityInherit(k, c, o), x).prio >= T(k, c).prio
  {
    hide *;
    var r, p := T(k, c).(piOwner := o), T(k, c).prio;
    var k1 := SetTcb(k, c, r);
    DebtKeepsLinks(k, c, o);
    InheritIs(k, c, o);
    RewriteEdges(k, c, r);
    AlongSame(k, k1, o, j);
    var k2 := EffectivePrioritySet(k1, o, p);
    SetsTo(k1, o, p);
    SetToMeans(k1, k2, o, p, o);
    AlongSame(k1, k2, o, j);
    AlongIs(k2, o, j);
    EdgeIsWait(k2, o);
    RecomputeLiftsChain(k2, o, T(k2, o).blockedOn.value, MAX_DEPTH, j - 1, x, p);
  }

  lemma DebtKeepsLinks(k: State, c: Task, o: Task)
    requires Linked(k) && Live(k, c) && EdgeOf(T(k, c).doing).Some?
    ensures Linked(SetTcb(k, c, T(k, c).(piOwner := o)))
  {
    EdgesHold(k, c);
    hide Linked;
    LocalFrame(k, c, T(k, c).(piOwner := o));
  }

  /** The caller enters the lock's loop. */
  function Entered(k: State, c: Task, m: Mutex): State { SetTcb(k, c, T(k, c).(doing := Some(OfMutex(m)))) }

  lemma EnteredIs(k: State, c: Task, m: Mutex, w: Wait)
    requires Linked(k) && Live(k, c) && T(k, c).waitList.None? && T(k, c).blockedOn.None?
    ensures var k0 := Entered(k, c, m);
            && Linked(k0) && SameEdges(k, k0) && Live(k0, c) && EdgeOf(T(k0, c).doing).Some?
            && (forall x :: T(k0, x).prio == T(k, x).prio && (Live(k0, x) <==> Live(k, x)))
            && forall x :: x != c ==> T(LockPending(k, c, m, w), x) == T(PriorityInherit(k0, c, M(k, m).owner), x)
  {
    EdgesHold(k, c);
    var r := T(k, c).(doing := Some(OfMutex(m)));
    LocalFrame(k, c, r);
    RewriteEdges(k, c, r);
    hide Linked, PriorityInherit, SameEdges;
  }

  /** A contended lock by a more urgent task lifts not only the holder but everyone the holder waits behind,
      eight mutexes deep. */
  lemma LockLiftsTheChain(k: State, c: Task, m: Mutex, w: Wait, j: nat, x: Task)
    requires Safe(k) && Caller(k, c, OfMutex(m)) && MutexLock(k, c, m, w).1 == Waiting
    requires T(k, c).prio > T(k, M(k, m).owner).prio && 1 <= j <= MAX_DEPTH && Along(k, M(k, m).owner, j) == Some(x) && x != c
    ensures T(MutexLock(k, c, m, w).0, x).prio >= T(k, c).prio
  {
    var o := M(k, m).owner;
    var k0 := Entered(k, c, m);
    hide *;
    MutexLockOutcome(k, c, m, w);
    CallerRuns(k, c, OfMutex(m));
    LockAnswers(k, c, m, w);
    EnteredIs(k, c, m, w);
    AlongIs(k, o, j);
    AlongSame(k, k0, o, j);
    InheritLiftsChain(k0, c, o, j, x);
    BeginOthers(LockPending(k, c, m, w), c, OfMutex(m), w, x);
  }

  // ---------- a run ----------

  /** Three tasks, of priority 1, 3 and 5, and two mutexes. */
  function Stage(tcb: map<Task, Tcb>, ready: map<nat, seq<Task>>, bitmap: set<nat>, mutexes: map<Mutex, MutexObj>,
                 ws: map<WaitQ, seq<Task>>, current: Task, pend: bool): State
  {
    State(tcb, ws, mutexes, map[], map[], ready, bitmap, [], Some(current), pend, 0, false)
  }

  function Fresh(p: nat): Tcb { CLEARED.(base := p, prio := p, state := Suspended) }
  function Holding(p: nat, m: Mutex): Tcb { Fresh(p).(state := Running, owned := [m]) }

  /** Task 1 asleep with mutex 1, at priority p. */
  function Asleep1(p: nat): Tcb { Holding(1, 1).(state := Blocked, prio := p) }

  /** Task 2 queued on mutex 1, with mutex 2. */
  const QUEUED2: Tcb := Holding(3, 2).(state := Blocked, waitList := Some(OfMutex(1)), doing := Some(OfMutex(1)),
                                       piOwner := 1, blockedOn := Some(1), blockedForever := true)
  const BY1: MutexObj := MutexObj(true, 1)
  const BY2: MutexObj := MutexObj(true, 2)

  function K0(): State { Stage(map[], map[], {}, map[], map[], IDLE, false) }
  function K1(): State { Stage(map[1 := Fresh(1), 2 := Fresh(3), 3 := Fresh(5)], map[], {}, map[], map[], IDLE, false) }
  function K2(): State {
    Stage(map[1 := Fresh(1).(state := Ready), 2 := Fresh(3), 3 := Fresh(5)], map[1 := [1]], {1}, map[], map[], IDLE, true)
  }
  function K3(): State {
    Stage(map[1 := Fresh(1).(state := Running), 2 := Fresh(3), 3 := Fresh(5)], map[1 := []], {}, map[], map[], 1, false)
  }
  function K4(): State { Stage(map[1 := Holding(1, 1), 2 := Fresh(3), 3 := Fresh(5)], map[1 := []], {}, map[1 := BY1], map[], 1, false) }
  function K5(): State { Stage(map[1 := Asleep1(1), 2 := Fresh(3), 3 := Fresh(5)], map[1 := []], {}, map[1 := BY1], map[], 1, true) }
  function K6(): State {
    Stage(map[1 := Asleep1(1), 2 := Fresh(3).(state := Ready), 3 := Fresh(5)], map[1 := [], 3 := [2]], {3}, map[1 := BY1], map[], 1, true)
  }
  function K7(): State {
    Stage(map[1 := Asleep1(1), 2 := Fresh(3).(state := Running), 3 := Fresh(5)], map[1 := [], 3 := []], {}, map[1 := BY1], map[], 2, false)
  }
  function K8(): State {
    Stage(map[1 := Asleep1(1), 2 := Holding(3, 2), 3 := Fresh(5)], map[1 := [], 3 := []], {}, map[1 := BY1, 2 := BY2], map[], 2, false)
  }
  function K9(): State {
    Stage(map[1 := Asleep1(3), 2 := QUEUED2, 3 := Fresh(5)], map[1 := [], 3 := []], {}, map[1 := BY1, 2 := BY2],
          map[OfMutex(1) := [2]], 2, true)
  }
  function K10(): State {
    Stage(map[1 := Asleep1(3), 2 := QUEUED2, 3 := Fresh(5).(state := Ready)], map[1 := [], 3 := [], 5 := [3]], {5},
          map[1 := BY1, 2 := BY2], map[OfMutex(1) := [2]], 2, true)
  }
  function K11(): State {
    Stage(map[1 := Asleep1(3), 2 := QUEUED2, 3 := Fresh(5).(state := Running)], map[1 := [], 3 := [], 5 := []], {},
          map[1 := BY1, 2 := BY2], map[OfMutex(1) := [2]], 3, false)
  }

  lemma FreeLockIs(k: State, c: Task, m: Mutex)
    requires !M(k, m).locked && WaitersOf(k, OfMutex(m)) == [] && k.current == Some(c) && Live(k, c)
    ensures MutexLock(k, c, m, Forever).0
         == k.(mutexes := k.mutexes[m := MutexObj(true, c)],
               tcb := k.tcb[c := Finished(T(k, c).(owned := T(k, c).owned + [m]))])
  {
    hide PriorityRecompute;
  }

  lemma SleeperIs(k: State, o: Task, p: nat)
    requires T(k, o).state == Blocked && T(k, o).waitList.None? && p != T(k, o).prio
    ensures EffectivePrioritySet(k, o, p) == SetTcb(k, o, T(k, o).(prio := p))
  {
  }

  /** An owner asleep outside every list is lifted where it is. */
  lemma LiftIs(k: State, c: Task, o: Task)
    requires o != c && Live(k, c) && Live(k, o) && T(k, o).prio < T(k, c).prio
    requires T(k, o).state == Blocked && T(k, o).waitList.None? && T(k, o).blockedOn.None?
    ensures PriorityInherit(k, c, o) == k.(tcb := k.tcb[c := T(k, c).(piOwner := o)][o := T(k, o).(prio := T(k, c).prio)])
  {
    hide EffectivePrioritySet, PriorityRecompute;
    InheritIs(k, c, o);
    SleeperIs(SetTcb(k, c, T(k, c).(piOwner := o)), o, T(k, c).prio);
  }

  lemma FirstWaitIs(k: State, c: Task, q: WaitQ)
    requires WaitersOf(k, q) == [] && k.lockCount == 0 && Live(k, c)
    ensures WaitBegin(k, c, q, Forever)
         == k.(waiters := k.waiters[q := [c]], pendSv := true, tcb := k.tcb[c := Queueing(T(k, c), q, Forever)])
  {
    assert Ranked(k.tcb, [], c) == [c];
    hide Ranked;
  }

  /** What the caller's and the owner's control blocks become. */
  function Contended(tcb: map<Task, Tcb>, c: Task, m: Mutex, o: Task): map<Task, Tcb>
    requires c in tcb && o in tcb
  {
    tcb[o := tcb[o].(prio := tcb[c].prio)][c := Queueing(Pending(tcb[c], m, o, Forever), OfMutex(m), Forever)]
  }

  lemma PendingIs(k: State, c: Task, m: Mutex, o: Task)
    requires M(k, m).owner == o && o != c && Live(k, c) && Live(k, o)
    requires T(k, o).prio < T(k, c).prio && T(k, o).state == Blocked && T(k, o).waitList.None? && T(k, o).blockedOn.None?
    ensures LockPending(k, c, m, Forever)
         == k.(tcb := k.tcb[o := T(k, o).(prio := T(k, c).prio)][c := Pending(T(k, c), m, o, Forever)])
  {
    hide PriorityInherit;
    LiftIs(SetTcb(k, c, T(k, c).(doing := Some(OfMutex(m)))), c, o);
  }

  /** The caller is the first waiter. */
  lemma ContendedLockIs(k: State, c: Task, m: Mutex, o: Task)
    requires M(k, m) == MutexObj(true, o) && o != c && k.lockCount == 0 && Live(k, c) && Live(k, o) && WaitersOf(k, OfMutex(m)) == []
    requires T(k, o).prio < T(k, c).prio && T(k, o).state == Blocked && T(k, o).waitList.None? && T(k, o).blockedOn.None?
    ensures MutexLock(k, c, m, Forever).0
         == k.(waiters := k.waiters[OfMutex(m) := [c]], pendSv := true, tcb := Contended(k.tcb, c, m, o))
  {
    hide LockPending, WaitBegin, MutexLock, Queueing, Pending;
    LockAnswers(k, c, m, Forever);
    PendingIs(k, c, m, o);
    FirstWaitIs(LockPending(k, c, m, Forever), c, OfMutex(m));
  }

  // The steps, one by one.

  lemma StepsCreate()
    ensures IsRun(K0(), [Create(1, 1, false), Create(2, 3, false), Create(3, 5, false)])
    ensures After(K0(), [Create(1, 1, false), Create(2, 3, false), Create(3, 5, false)]) == K1()
  {
    var a := Stage(map[1 := Fresh(1)], map[], {}, map[], map[], IDLE, false);
    var b := Stage(map[1 := Fresh(1), 2 := Fresh(3)], map[], {}, map[], map[], IDLE, false);
    assert b.tcb[3 := Fresh(5)] == K1().tcb;
    FullQueues.TwoSteps(K0(), Create(1, 1, false), a, Create(2, 3, false), b);
    FullQueues.OneStep(b, Create(3, 5, false));
    FullQueues.RunJoins(K0(), [Create(1, 1, false), Create(2, 3, false)], [Create(3, 5, false)]);
  }

  lemma StepStart1()
    ensures TaskStart(K1(), 1) == K2() && Live(K1(), 1)
  {
    FullQueues.StartIs(K1(), 1);
    assert Bucket(K1(), 1) + [1] == [1];
    assert K1().bitmap + {1} == {1};
    assert K1().tcb[1 := Fresh(1).(state := Ready)] == K2().tcb;
  }

  lemma StepSwitch1()
    ensures PendSv(K2()) == K3() && K2().pendSv
  {
    FullQueues.SwitchIs(K2(), 1, 1);
    assert K2().tcb[1 := Fresh(1).(state := Running)] == K3().tcb;
    assert K2().ready[1 := []] == K3().ready;
    assert K2().bitmap - {1} == {};
  }

  lemma StepLock1()
    ensures MutexLock(K3(), 1, 1, Forever).0 == K4() && Caller(K3(), 1, OfMutex(1)) && T(K3(), 1).doing.None?
  {
    FreeLockIs(K3(), 1, 1);
    assert [] + [1] == [1];
    assert K3().tcb[1 := Holding(1, 1)] == K4().tcb;
  }

  lemma StepSleep1()
    ensures Sleep(K4(), 1, Forever) == K5() && Free(K4()) && K4().current == Some(1)
  {
    assert K4().tcb[1 := Asleep1(1)] == K5().tcb;
  }

  lemma StepStart2()
    ensures TaskStart(K5(), 2) == K6() && Live(K5(), 2)
  {
    FullQueues.StartIs(K5(), 2);
    assert Bucket(K5(), 3) + [2] == [2];
    assert K5().bitmap + {3} == {3};
    assert K5().tcb[2 := Fresh(3).(state := Ready)] == K6().tcb;
    assert K5().ready[3 := [2]] == K6().ready;
  }

  lemma StepSwitch2()
    ensures PendSv(K6()) == K7() && K6().pendSv
  {
    FullQueues.SwitchIs(K6(), 3, 2);
    assert K6().tcb[2 := Fresh(3).(state := Running)] == K7().tcb;
    assert K6().ready[3 := []] == K7().ready;
    assert K6().bitmap - {3} == {};
  }

  lemma StepLock2()
    ensures MutexLock(K7(), 2, 2, Forever).0 == K8() && Caller(K7(), 2, OfMutex(2)) && T(K7(), 2).doing.None?
  {
    FreeLockIs(K7(), 2, 2);
    assert [] + [2] == [2];
    assert K7().tcb[2 := Holding(3, 2)] == K8().tcb;
    assert K7().mutexes[2 := BY2] == K8().mutexes;
  }

  lemma StepWait2()
    ensures MutexLock(K8(), 2, 1, Forever).0 == K9() && Caller(K8(), 2, OfMutex(1)) && T(K8(), 2).doing.None?
  {
    hide MutexLock;
    ContendedLockIs(K8(), 2, 1, 1);
    assert Contended(K8().tcb, 2, 1, 1) == K9().tcb;
  }

  lemma StepStart3()
    ensures TaskStart(K9(), 3) == K10() && Live(K9(), 3)
  {
    FullQueues.StartIs(K9(), 3);
    assert Bucket(K9(), 5) + [3] == [3];
    assert K9().bitmap + {5} == {5};
    assert K9().tcb[3 := Fresh(5).(state := Ready)] == K10().tcb;
    assert K9().ready[5 := [3]] == K10().ready;
  }

  lemma StepSwitch3()
    ensures PendSv(K10()) == K11() && K10().pendSv
  {
    FullQueues.SwitchIs(K10(), 5, 3);
    assert K10().tcb[3 := Fresh(5).(state := Running)] == K11().tcb;
    assert K10().ready[5 := []] == K11().ready;
    assert K10().bitmap - {5} == {};
  }

  predicate Goes(k: State, a: Action, k': State) { Enabled(k, a) && Apply(k, a) == k' }

  lemma StartGoes(k: State, t: Task, k': State)
    requires Live(k, t) && TaskStart(k, t) == k'
    ensures Goes(k, Start(t), k')
  {
    hide TaskStart;
  }

  lemma SwitchGoes(k: State, k': State)
    requires k.pendSv && PendSv(k) == k'
    ensures Goes(k, Switch, k')
  {
    hide PendSv;
  }

  lemma LockGoes(k: State, c: Task, m: Mutex, k': State)
    requires Caller(k, c, OfMutex(m)) && T(k, c).doing.None? && MutexLock(k, c, m, Forever).0 == k'
    ensures Goes(k, Lock(m, Forever), k')
  {
    hide MutexLock;
  }

  lemma SleepGoes(k: State, c: Task, k': State)
    requires k.current == Some(c) && Free(k) && Sleep(k, c, Forever) == k'
    ensures Goes(k, SleepFor(Forever), k')
  {
    hide Sleep;
  }

  lemma Pair(k: State, a: Action, k1: State, b: Action, k2: State)
    requires Goes(k, a, k1) && Goes(k1, b, k2)
    ensures IsRun(k, [a, b]) && After(k, [a, b]) == k2
  {
    FullQueues.TwoSteps(k, a, k1, b, k2);
  }

  lemma FirstHolds()
    ensures Goes(K1(), Start(1), K2()) && Goes(K2(), Switch, K3()) && Goes(K3(), Lock(1, Forever), K4()) && Goes(K4(), SleepFor(Forever), K5())
  {
    hide *;
    StepStart1();
    StartGoes(K1(), 1, K2());
    StepSwitch1();
    SwitchGoes(K2(), K3());
    StepLock1();
    LockGoes(K3(), 1, 1, K4());
    StepSleep1();
    SleepGoes(K4(), 1, K5());
  }

  lemma SecondHolds()
    ensures Goes(K5(), Start(2), K6()) && Goes(K6(), Switch, K7()) && Goes(K7(), Lock(2, Forever), K8()) && Goes(K8(), Lock(1, Forever), K9())
  {
    hide *;
    StepStart2();
    StartGoes(K5(), 2, K6());
    StepSwitch2();
    SwitchGoes(K6(), K7());
    StepLock2();
    LockGoes(K7(), 2, 2, K8());
    StepWait2();
    LockGoes(K8(), 2, 1, K9());
  }

  lemma ThirdRuns()
    ensures Goes(K9(), Start(3), K10()) && Goes(K10(), Switch, K11()) && Enabled(K11(), Lock(2, Forever))
  {
    hide TaskStart, PendSv, Goes, K9, K10;
    StepStart3();
    StartGoes(K9(), 3, K10());
    StepSwitch3();
    SwitchGoes(K10(), K11());
  }

  lemma UpToTheLock() returns (run: seq<Action>)
    ensures IsRun(K0(), run) && After(K0(), run) == K11()
  {
    hide *;
    StepsCreate();
    FirstHolds();
    SecondHolds();
    ThirdRuns();
    var a := [Create(1, 1, false), Create(2, 3, false), Create(3, 5, false)];
    Pair(K1(), Start(1), K2(), Switch, K3());
    Pair(K3(), Lock(1, Forever), K4(), SleepFor(Forever), K5());
    Pair(K5(), Start(2), K6(), Switch, K7());
    Pair(K7(), Lock(2, Forever), K8(), Lock(1, Forever), K9());
    Pair(K9(), Start(3), K10(), Switch, K11());
    var b, c := [Start(1), Switch], [Lock(1, Forever), SleepFor(Forever)];
    var d, e, f := [Start(2), Switch], [Lock(2, Forever), Lock(1, Forever)], [Start(3), Switch];
    FullQueues.RunJoins(K0(), a, b);
    FullQueues.RunJoins(K0(), a + b, c);
    FullQueues.RunJoins(K0(), a + b + c, d);
    FullQueues.RunJoins(K0(), a + b + c + d, e);
    FullQueues.RunJoins(K0(), a + b + c + d + e, f);
    run := a + b + c + d + e + f;
  }

  /** Before the lock both owners are below the caller, and the chain is there. */
  lemma BeforeTheLock()
    ensures Initial(K0()) && Caller(K11(), 3, OfMutex(2)) && MayWait(K11(), Forever, false) && Caller0(K11()) == 3
    ensures M(K11(), 2) == BY2 && M(K11(), 1) == BY1 && Along(K11(), 2, 1) == Some(1) && T(K11(), 2).blockedOn == Some(1)
    ensures T(K11(), 1).prio == 3 && T(K11(), 2).prio == 3 && T(K11(), 3).prio == 5 && T(K11(), 1).base == 1 && T(K11(), 2).base == 3
  {
    assert Along(K11(), 1, 0) == Some(1);
  }

  /** A reachable run whose last step lifts the holder of the mutex asked for and, behind a second mutex, the
      holder that one waits for: task 3 waits for 2, which waits for 1, and all three go at priority 5 or more. */
  lemma LiftedThroughTwoLinks() returns (k: State, run: seq<Action>, k1: State, k2: State)
    ensures Initial(k) && IsRun(k, run) && k1 == After(k, run) && IsRun(k1, [Lock(2, Forever)]) && k2 == After(k1, [Lock(2, Forever)])
    ensures M(k1, 2) == BY2 && T(k1, 2).blockedOn == Some(1) && M(k1, 1) == BY1 && T(k1, 1).prio < 5 && T(k1, 2).prio < 5
    ensures T(k2, 3).state == Blocked && T(k2, 3).blockedOn == Some(2) && T(k2, 2).prio >= 5 && T(k2, 1).prio >= 5
  {
    hide *;
    k, k1 := K0(), K11();
    run := UpToTheLock();
    BeforeTheLock();
    ThirdRuns();
    FullQueues.OneStep(k1, Lock(2, Forever));
    k2 := Apply(k1, Lock(2, Forever));
    AppliesLock(k1, 2);
    InitiallySafe(k);
    EveryReachableStateIsSafe(k, run);
    MutexLockOutcome(k1, 3, 2, Forever);
    MustBe();
    LockLiftsTheChain(k1, 3, 2, Forever, 1, 1);
    AsleepBlocks(k2, 3, OfMutex(2));
  }

  lemma AppliesLock(k: State, m: Mutex)
    ensures Apply(k, Lock(m, Forever)) == MutexLock(k, Caller0(k), m, Forever).0
  {
    hide MutexLock;
  }

  lemma InitiallySafe(k: State)
    requires Initial(k)
    ensures Safe(k)
  {
    hide Initial, Safe;
    InitialIsSafe(k);
  }

  lemma MustBe()
    ensures BY2.locked && BY2.owner == 2 && MAX_DEPTH >= 1
  {
  }

  lemma AsleepBlocks(k: State, c: Task, q: WaitQ)
    requires Asleep(k, c, q, Forever)
    ensures T(k, c).state == Blocked
  {
  }
}
