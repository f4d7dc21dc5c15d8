/** A comment in os_queue.c says that a full queue holds no blocked receiver. It may; here is when, and a run
    that gets there. */
module FullQueues {
  import opened Sequences
  import opened Kernel
  import opened Links
  import opened Operations
  import opened Scheduling
  import opened Preemption
  import opened Waking
  import opened NoLostWakeups
  import opened Timeouts
  import opened Runs

  /** It holds none while fewer receivers than its capacity are on their way to an item. */
  lemma FullAndFewWoken(k: State, q: nat)
    requires Safe(k) && Q(k, q).count >= Q(k, q).capacity && |Woken(k, Receivers(q))| < Q(k, q).capacity
    ensures WaitersOf(k, Receivers(q)) == []
  {
    assert NoLostAt(k, Receivers(q), 0);
  }

  lemma SecondIsAnother(k: State, q: WaitQ)
    requires Linked(k) && |WaitersOf(k, q)| >= 2
    ensures WaitersOf(k, q)[1] != WaitersOf(k, q)[0]
  {
    var ws := WaitersOf(k, q);
    assert Queued(k, q, ws[0]) <= 1;
    assert ws == [ws[0], ws[1]] + ws[2..];
    assert multiset(ws) == multiset{ws[0], ws[1]} + multiset(ws[2..]);
  }

  lemma OthersWait(k: State, q: WaitQ, x: Task)
    requires Linked(k) && WaitersOf(k, q) != []
    ensures T(WakeOne(k, q), x).waitList == Some(q) <==> x != WaitersOf(k, q)[0] && x in WaitersOf(k, q)
  {
    hide Linked, WakeOne, Becomes;
    var t := WaitersOf(k, q)[0];
    WakeOneFrame(k, q);
    WaitsIsQueued(k, q, x);
    if x == t { BecomesAt(k, WakeOne(k, q), t, Signaled(T(k, t), q)); } else { BecomesOther(k, WakeOne(k, q), t, Signaled(T(k, t), q), x); }
  }

  /** Waking the head of a list leaves somebody on it exactly when two or more were there. */
  lemma OthersStay(k: State, q: WaitQ)
    requires Linked(k)
    ensures WaitersOf(WakeOne(k, q), q) != [] <==> |WaitersOf(k, q)| >= 2
  {
    var ws := WaitersOf(k, q);
    var k' := WakeOne(k, q);
    hide *;
    WakeOneFrame(k, q);
    if |ws| >= 2 {
      SecondIsAnother(k, q);
      OthersWait(k, q, ws[1]);
      WaitsIsQueued(k', q, ws[1]);
    } else if WaitersOf(k', q) != [] {
      var x := WaitersOf(k', q)[0];
      HeadWaits(k', q);
      OthersWait(k, q, x);
    }
  }

  /** The send that fills the queue leaves a receiver blocked if and only if at least two were. */
  lemma FillingSendLeavesReceivers(k: State, c: Task, q: nat, w: Wait, isr: bool)
    requires Safe(k) && Q(k, q).count + 1 == Q(k, q).capacity
    ensures var k' := QueueSend(k, c, q, w, isr).0; Q(k', q).count == Q(k', q).capacity
    ensures WaitersOf(QueueSend(k, c, q, w, isr).0, Receivers(q)) != [] <==> |WaitersOf(k, Receivers(q))| >= 2
  {
    assert Linked(k);
    var k1 := Stored(k, q);
    StoredIs(k, q);
    hide *;
    StoringSend(k, c, q, w, isr);
    OthersStay(k1, Receivers(q));
    WakeKeepsQueues(k1, Receivers(q));
    EndKeepsLists(WakeOne(k1, Receivers(q)), isr);
    SameLists(WakeOne(k1, Receivers(q)), WaitEnd(WakeOne(k1, Receivers(q)), isr), q);
    SameLists(k1, WakeOne(k1, Receivers(q)), q);
  }

  function Stored(k: State, q: nat): State { k.(queues := k.queues[q := Q(k, q).(count := Q(k, q).count + 1)]) }

  lemma StoredIs(k: State, q: nat)
    requires Linked(k)
    ensures Linked(Stored(k, q)) && Q(Stored(k, q), q) == Q(k, q).(count := Q(k, q).count + 1)
    ensures WaitersOf(Stored(k, q), Receivers(q)) == WaitersOf(k, Receivers(q))
  {
    OnlyCountersLinked(k, Stored(k, q));
  }

  lemma StoringSend(k: State, c: Task, q: nat, w: Wait, isr: bool)
    requires Q(k, q).count < Q(k, q).capacity
    ensures QueueSend(k, c, q, w, isr).0 == WaitEnd(WakeOne(Stored(k, q), Receivers(q)), isr)
  {
    hide WaitEnd, WakeOne;
  }

  lemma SameLists(k: State, k': State, q: nat)
    ensures k'.waiters == k.waiters ==> WaitersOf(k', Receivers(q)) == WaitersOf(k, Receivers(q))
    ensures k'.queues == k.queues ==> Q(k', q) == Q(k, q)
  {
  }

  lemma WakeKeepsQueues(k: State, q: WaitQ)
    requires Linked(k)
    ensures WakeOne(k, q).queues == k.queues
  {
    hide Linked, WakeOne;
    WakeOneFrame(k, q);
  }

  lemma EndKeepsLists(k: State, isr: bool)
    ensures WaitEnd(k, isr).waiters == k.waiters && WaitEnd(k, isr).queues == k.queues
  {
  }

  // ---------- the run ----------

  function Sleeper(p: nat): Tcb { CLEARED.(base := p, prio := p, state := Suspended) }

  function Waiter(p: nat): Tcb { Sleeper(p).(state := Blocked, waitList := Some(Receivers(0)), doing := Some(Receivers(0))) }

  /** Two tasks, created and started, and one queue with room for one item. */
  function Scene(tcb: map<Task, Tcb>, ready: map<nat, seq<Task>>, bitmap: set<nat>, ws: map<WaitQ, seq<Task>>, current: Task, pend: bool): State {
    State(tcb, ws, map[], map[], map[0 := QueueObj(0, 1, Normal)], ready, bitmap, [], Some(current), pend, 0, false)
  }

  const READY: Tcb := Sleeper(5).(state := Ready)
  const READY2: Tcb := Sleeper(4).(state := Ready)

  lemma TwoSteps(k: State, a: Action, k1: State, b: Action, k2: State)
    requires Enabled(k, a) && Apply(k, a) == k1 && Enabled(k1, b) && Apply(k1, b) == k2
    ensures IsRun(k, [a, b]) && After(k, [a, b]) == k2
  {
    hide Enabled, Apply;
    assert [a, b][1..] == [b] && [b][1..] == [];
    assert IsRun(k1, [b]) && After(k1, [b]) == k2;
  }

  lemma RunJoins(k: State, a: seq<Action>, b: seq<Action>)
    requires IsRun(k, a) && IsRun(After(k, a), b)
    ensures IsRun(k, a + b) && After(k, a + b) == After(After(k, a), b)
    decreases |a|
  {
    hide Enabled, Apply;
    if a == [] {
      assert a + b == b;
    } else {
      assert (a + b)[1..] == a[1..] + b;
      RunJoins(Apply(k, a[0]), a[1..], b);
    }
  }

  lemma StartIs(k: State, t: Task)
    requires T(k, t).state == Suspended && T(k, t).waitList.None? && k.current != Some(t) && Live(k, t)
    ensures TaskStart(k, t) == PreemptRequest(MakeReady(k, t), t)
  {
    hide MakeReady, PreemptRequest;
  }

  /** The switch to the only task of the highest ready priority, away from one that cannot go on. */
  lemma SwitchIs(k: State, p: nat, t: Task)
    requires k.current.Some? && k.lockCount == 0 && (k.current.value == IDLE || T(k, k.current.value).state == Blocked)
    requires p in k.bitmap && p <= PRIO_MAX && (forall x :: x in k.bitmap ==> x <= p) && Bucket(k, p) == [t]
    ensures PendSv(k) == k.(pendSv := false, tcb := k.tcb[t := T(k, t).(state := Running)],
                            ready := k.ready[p := []], bitmap := k.bitmap - {p}, current := Some(t))
  {
    assert HighestBit(k.bitmap, PRIO_MAX) == p;
    hide HighestBit;
  }

  /** A receive from the empty queue blocks its caller at the end of the list. */
  lemma ReceiveIs(k: State, c: Task)
    requires Q(k, 0).count == 0 && k.lockCount == 0 && Live(k, c)
    requires Ranked(k.tcb, WaitersOf(k, Receivers(0)), c) == WaitersOf(k, Receivers(0)) + [c]
    ensures QueueReceive(k, c, 0, Forever, false).0
         == k.(waiters := k.waiters[Receivers(0) := WaitersOf(k, Receivers(0)) + [c]], pendSv := true,
               tcb := k.tcb[c := T(k, c).(waitList := Some(Receivers(0)), signaled := false, wokenFrom := None,
                                          timed := false, state := Blocked, doing := Some(Receivers(0)))])
  {
    hide Ranked;
  }

  // The states of the run: two tasks created, started, and blocked one after the other.

  function Empty(): State { Scene(map[], map[], {}, map[], IDLE, false) }
  function Created(): State { Scene(map[1 := Sleeper(5), 2 := Sleeper(4)], map[], {}, map[], IDLE, false) }
  function Started(): State { Scene(map[1 := READY, 2 := READY2], map[5 := [1], 4 := [2]], {5, 4}, map[], IDLE, true) }
  function OneWaits(): State { Scene(map[1 := Waiter(5), 2 := READY2], map[5 := [], 4 := [2]], {4}, map[Receivers(0) := [1]], 1, true) }
  function BothWait(): State { Scene(map[1 := Waiter(5), 2 := Waiter(4)], map[5 := [], 4 := []], {}, map[Receivers(0) := [1, 2]], 2, true) }

  lemma Creation()
    ensures IsRun(Empty(), [Create(1, 5, false), Create(2, 4, false)])
    ensures After(Empty(), [Create(1, 5, false), Create(2, 4, false)]) == Created()
  {
    var k1 := Scene(map[1 := Sleeper(5)], map[], {}, map[], IDLE, false);
    TwoSteps(Empty(), Create(1, 5, false), k1, Create(2, 4, false), Created());
  }

  lemma StartOne()
    ensures TaskStart(Created(), 1) == Scene(map[1 := READY, 2 := Sleeper(4)], map[5 := [1]], {5}, map[], IDLE, true)
  {
    StartIs(Created(), 1);
    assert Bucket(Created(), 5) + [1] == [1];
    assert Created().bitmap + {5} == {5};
    assert Created().tcb[1 := READY] == map[1 := READY, 2 := Sleeper(4)];
  }

  lemma StartTwo()
    ensures TaskStart(Scene(map[1 := READY, 2 := Sleeper(4)], map[5 := [1]], {5}, map[], IDLE, true), 2) == Started()
  {
    var k := Scene(map[1 := READY, 2 := Sleeper(4)], map[5 := [1]], {5}, map[], IDLE, true);
    StartIs(k, 2);
    assert Bucket(k, 4) + [2] == [2];
    assert k.bitmap + {4} == {5, 4};
    assert k.tcb[2 := READY2] == map[1 := READY, 2 := READY2];
    assert k.ready[4 := [2]] == map[5 := [1], 4 := [2]];
  }

  lemma Starting()
    ensures IsRun(Created(), [Start(1), Start(2)]) && After(Created(), [Start(1), Start(2)]) == Started()
  {
    hide TaskStart;
    StartOne();
    StartTwo();
    TwoSteps(Created(), Start(1), Scene(map[1 := READY, 2 := Sleeper(4)], map[5 := [1]], {5}, map[], IDLE, true), Start(2), Started());
  }

  function OneRuns(): State { Scene(map[1 := READY.(state := Running), 2 := READY2], map[5 := [], 4 := [2]], {4}, map[], 1, false) }
  function TwoRuns(): State {
    Scene(map[1 := Waiter(5), 2 := READY2.(state := Running)], map[5 := [], 4 := []], {}, map[Receivers(0) := [1]], 2, false)
  }

  lemma SwitchToOne()
    ensures PendSv(Started()) == OneRuns()
  {
    var k := Started();
    SwitchIs(k, 5, 1);
    assert k.tcb[1 := READY.(state := Running)] == OneRuns().tcb;
    assert k.ready[5 := []] == OneRuns().ready;
    assert k.bitmap - {5} == {4};
  }

  lemma OneReceives()
    ensures QueueReceive(OneRuns(), 1, 0, Forever, false).0 == OneWaits()
  {
    var k := OneRuns();
    assert WaitersOf(k, Receivers(0)) + [1] == [1];
    assert Ranked(k.tcb, WaitersOf(k, Receivers(0)), 1) == [1];
    hide QueueReceive, Ranked;
    ReceiveIs(k, 1);
    assert k.tcb[1 := Waiter(5)] == OneWaits().tcb;
  }

  lemma SwitchToTwo()
    ensures PendSv(OneWaits()) == TwoRuns()
  {
    var k := OneWaits();
    SwitchIs(k, 4, 2);
    assert k.tcb[2 := READY2.(state := Running)] == TwoRuns().tcb;
    assert k.ready[4 := []] == TwoRuns().ready;
    assert k.bitmap - {4} == {};
  }

  lemma TwoReceives()
    ensures QueueReceive(TwoRuns(), 2, 0, Forever, false).0 == BothWait()
  {
    var k := TwoRuns();
    assert Ranked(k.tcb, [1], 2) == [1, 2];
    hide QueueReceive, Ranked;
    ReceiveIs(k, 2);
    assert k.tcb[2 := Waiter(4)] == BothWait().tcb;
  }

  lemma FirstWaits()
    ensures IsRun(Started(), [Switch, Receive(0, Forever, false)]) && After(Started(), [Switch, Receive(0, Forever, false)]) == OneWaits()
  {
    hide PendSv, QueueReceive;
    SwitchToOne();
    OneReceives();
    TwoSteps(Started(), Switch, OneRuns(), Receive(0, Forever, false), OneWaits());
  }

  lemma SecondWaits()
    ensures IsRun(OneWaits(), [Switch, Receive(0, Forever, false)]) && After(OneWaits(), [Switch, Receive(0, Forever, false)]) == BothWait()
  {
    hide PendSv, QueueReceive;
    SwitchToTwo();
    TwoReceives();
    TwoSteps(OneWaits(), Switch, TwoRuns(), Receive(0, Forever, false), BothWait());
  }

  lemma Prelude() returns (run: seq<Action>)
    ensures IsRun(Empty(), run) && After(Empty(), run) == BothWait()
  {
    Creation();
    Starting();
    FirstWaits();
    SecondWaits();
    var a, b, w := [Create(1, 5, false), Create(2, 4, false)], [Start(1), Start(2)], [Switch, Receive(0, Forever, false)];
    hide *;
    RunJoins(Empty(), a, b);
    RunJoins(Empty(), a + b, w);
    RunJoins(Empty(), a + b + w, w);
    run := a + b + w + w;
  }

  lemma OneStep(k: State, a: Action)
    requires Enabled(k, a)
    ensures IsRun(k, [a]) && After(k, [a]) == Apply(k, a)
  {
    hide Enabled, Apply;
    assert [a][1..] == [];
  }

  /** Two receivers block on a queue for one item; an interrupt stores one. The queue is full, and the second
      receiver is still queued. */
  lemma FullWithReceiver() returns (k: State, run: seq<Action>, k': State)
    ensures Initial(k) && IsRun(k, run) && k' == After(k, run)
    ensures Q(k', 0).count == Q(k', 0).capacity && WaitersOf(k', Receivers(0)) != []
  {
    k := Empty();
    InitialIsSafe(k);
    var before := Prelude();
    assert Q(BothWait(), 0) == QueueObj(0, 1, Normal) && |WaitersOf(BothWait(), Receivers(0))| == 2 && Enabled(BothWait(), Send(0, Nothing, true));
    k' := QueueSend(BothWait(), 2, 0, Nothing, true).0;
    assert Apply(BothWait(), Send(0, Nothing, true)) == k' && Caller0(BothWait()) == 2;
    hide *;
    EveryReachableStateIsSafe(k, before);
    OneStep(BothWait(), Send(0, Nothing, true));
    RunJoins(k, before, [Send(0, Nothing, true)]);
    run := before + [Send(0, Nothing, true)];
    FillingSendLeavesReceivers(BothWait(), 2, 0, Nothing, true);
  }
}
