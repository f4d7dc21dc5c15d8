/** Who runs next. A context switch takes the task that has stood longest among the most urgent, and puts a
    preempted one behind its equals, so equals that yield take turns. */
module Rotation {
  import opened Sequences
  import opened Kernel
  import opened Operations
  import opened Scheduling
  import opened Preemption
  import opened Runs
  import FullQueues
  import Tickless
  import TM = Timers

  /** A task on the processor that could go on. */
  predicate Executes(k: State, c: Task) { k.current == Some(c) && c != IDLE && T(k, c).state == Running }

  /** p is the most urgent priority with a ready task. */
  ghost predicate Top(k: State, p: nat) { Bucket(k, p) != [] && forall b: nat :: Bucket(k, b) != [] ==> b <= p }

  /** Who joins bucket b when the running task is preempted. */
  function Preempted(k: State, b: nat): seq<Task> {
    if k.current.Some? && Executes(k, k.current.value) && T(k, k.current.value).prio == b then [k.current.value] else []
  }

  /** h has the processor, and every other task is as it was but for a preempted runner, now ready. */
  ghost predicate TakesOver(k: State, k': State, h: Task) {
    && k'.current == Some(h) && T(k', h) == T(k, h).(state := Running)
    && forall x: Task :: x != h ==> T(k', x) == if Executes(k, x) then T(k, x).(state := Ready) else T(k, x)
  }

  // ---------- the switch ----------

  function Saved(k: State): State {
    var k1 := k.(pendSv := false);
    if k.current.Some? && Executes(k, k.current.value) then MakeReady(k1, k.current.value) else k1
  }

  lemma SavesThenSelects(k: State)
    requires !Deferred(k)
    ensures PendSv(k) == SelectNext(Saved(k)) && SaveCurrent(k.(pendSv := false)) == Saved(k)
  {
    hide MakeReady, SelectNext;
  }

  lemma SavedBucket(k: State, b: nat, x: Task)
    ensures Bucket(Saved(k), b) == Bucket(k, b) + Preempted(k, b)
    ensures T(Saved(k), x) == if Executes(k, x) then T(k, x).(state := Ready) else T(k, x)
    ensures Saved(k).current == k.current
  {
    var k1 := k.(pendSv := false);
    assert Bucket(k1, b) == Bucket(k, b) && T(k1, x) == T(k, x) && k1.current == k.current;
    hide T, Bucket;
    if k.current.Some? && Executes(k, k.current.value) {
      SameAtCurrent(k, k1);
      MakeReadyBucket(k1, k.current.value, b);
      hide MakeReady;
      assert MakeReady(k1, k.current.value).current == k1.current by { MakesReady(k1, k.current.value); }
    }
  }

  lemma SameAtCurrent(k: State, k1: State)
    requires k1.tcb == k.tcb
    ensures k.current.Some? ==> T(k1, k.current.value) == T(k, k.current.value)
  {
  }

  lemma MakesReady(k: State, t: Task)
    ensures MakeReady(k, t).current == k.current && MakeReady(k, t).lockCount == k.lockCount
  {
  }

  lemma ExecutesIsCurrent(k: State, x: Task)
    ensures Executes(k, x) ==> k.current == Some(x) && T(k, x).state == Running && x != IDLE
  {
  }

  lemma SavedFacts(k: State)
    requires Scheduled(k) && !Deferred(k)
    ensures Structured(Saved(k), {}) && NobodyRuns(Saved(k)) && Saved(k).lockCount == 0
    ensures PendSv(k) == SelectNext(Saved(k))
  {
    var k1 := k.(pendSv := false);
    ClearPending(k);
    assert Deferred(k1) == Deferred(k);
    SavesThenSelects(k);
    hide Structured, NobodyRuns, Scheduled, OnlyDispatch;
    SaveKeeps(k1);
    SavedLock(k);
  }

  lemma SavedLock(k: State)
    ensures Saved(k).lockCount == k.lockCount
  {
  }

  lemma Dispatches(k: State, p: nat)
    requires k.lockCount == 0 && p in k.bitmap && p <= PRIO_MAX && (forall b :: b in k.bitmap ==> b <= p) && Bucket(k, p) != []
    ensures SelectNext(k) == Dispatch(k, p)
  {
    assert HighestBit(k.bitmap, PRIO_MAX) == p;
    hide HighestBit;
  }

  lemma DispatchIs(k: State, p: nat, b: nat, x: Task)
    requires Bucket(k, p) != []
    ensures var k' := Dispatch(k, p); var h := Bucket(k, p)[0];
            && k'.current == Some(h) && Bucket(k', b) == (if b == p then Bucket(k, p)[1..] else Bucket(k, b))
            && T(k', x) == if x == h then T(k, h).(state := Running) else T(k, x)
  {
  }

  /** Bits and buckets agree, and no bucket lies beyond the highest priority. */
  lemma TopIsHighest(k: State, p: nat)
    requires Structured(k, {}) && Top(k, p)
    ensures p in k.bitmap && p <= PRIO_MAX && forall b :: b in k.bitmap ==> b <= p
  {
    BitsBounded(k);
    assert ReadyBut(k, {});
  }

  lemma SelectsHead(k: State, p: nat)
    requires Structured(k, {}) && k.lockCount == 0 && Top(k, p)
    ensures Bucket(k, p) != [] && SelectNext(k) == Dispatch(k, p)
  {
    TopIsHighest(k, p);
    assert Bucket(k, p) != [];
    hide *;
    Dispatches(k, p);
  }

  /** With the preempted runner put back, bucket p is still the most urgent. */
  lemma SavedTop(k: State, p: nat)
    requires Top(k, p) && forall c: Task :: Executes(k, c) ==> T(k, c).prio <= p
    ensures Top(Saved(k), p)
  {
    hide Saved;
    SavedBucket(k, p, 0);
    forall b: nat | Bucket(Saved(k), b) != [] ensures b <= p { SavedBucket(k, b, 0); }
  }

  /** The switch takes the head of the most urgent bucket, unless the running task is more urgent still. Every
      bucket loses nobody else, and the preempted runner goes to the end of its own. */
  lemma SwitchTakesTheHead(k: State, p: nat)
    requires Scheduled(k) && !Deferred(k) && Top(k, p) && forall c: Task :: Executes(k, c) ==> T(k, c).prio <= p
    ensures Bucket(k, p) != [] && TakesOver(k, PendSv(k), Bucket(k, p)[0])
    ensures Bucket(PendSv(k), p) == Bucket(k, p)[1..] + Preempted(k, p)
    ensures forall b: nat :: b != p ==> Bucket(PendSv(k), b) == Bucket(k, b) + Preempted(k, b)
  {
    var s := Saved(k);
    assert Bucket(k, p) != [];
    hide *;
    SavedFacts(k);
    SavedTop(k, p);
    SelectsHead(s, p);
    SavedBucket(k, p, 0);
    var h := Bucket(k, p)[0];
    HeadNotRunning(k, p);
    DispatchIs(s, p, p, h);
    SavedBucket(k, p, h);
    forall b: nat | b != p ensures Bucket(PendSv(k), b) == Bucket(k, b) + Preempted(k, b) { DispatchIs(s, p, b, h); SavedBucket(k, b, h); }
    forall x: Task | x != h ensures T(PendSv(k), x) == if Executes(k, x) then T(k, x).(state := Ready) else T(k, x) {
      DispatchIs(s, p, p, x);
      SavedBucket(k, p, x);
    }
    TakesOverIs(k, PendSv(k), h);
  }

  lemma TakesOverIs(k: State, k': State, h: Task)
    requires k'.current == Some(h) && T(k', h) == T(k, h).(state := Running)
    requires forall x: Task :: x != h ==> T(k', x) == if Executes(k, x) then T(k, x).(state := Ready) else T(k, x)
    ensures TakesOver(k, k', h)
  {
  }

  lemma HeadNotRunning(k: State, p: nat)
    requires Scheduled(k) && Bucket(k, p) != []
    ensures !Executes(k, Bucket(k, p)[0]) && T(k, Bucket(k, p)[0]).state == Ready && T(k, Bucket(k, p)[0]).prio == p && Live(k, Bucket(k, p)[0])
  {
    assert Queues(k, p, Bucket(k, p)[0]) > 0;
  }

  /** A running task that outranks every ready one keeps the processor, and no bucket changes. */
  lemma SwitchLeavesTheHighest(k: State, c: Task)
    requires Scheduled(k) && !Deferred(k) && Executes(k, c) && forall b: nat :: Bucket(k, b) != [] ==> b < T(k, c).prio
    ensures PendSv(k).current == Some(c) && (forall x :: T(PendSv(k), x) == T(k, x)) && forall b :: Bucket(PendSv(k), b) == Bucket(k, b)
  {
    hide *;
    var s, p := Saved(k), T(k, c).prio;
    PreemptedIs(k, c);
    ExecutesIsCurrent(k, c);
    assert Bucket(k, p) == [] && T(k, c).(state := Running) == T(k, c);
    forall b: nat ensures b != p ==> Preempted(k, b) == [] { PreemptedOnly(k, c, b); }
    SavedFacts(k);
    SavedTopAlone(k, c);
    SelectsHead(s, p);
    SavedBucket(k, p, c);
    assert Bucket(s, p) == [c];
    forall b: nat ensures Bucket(PendSv(k), b) == Bucket(k, b) { DispatchIs(s, p, b, c); SavedBucket(k, b, c); }
    forall x: Task ensures T(PendSv(k), x) == T(k, x) {
      DispatchIs(s, p, p, x);
      SavedBucket(k, p, x);
      ExecutesIsCurrent(k, x);
      ExecutesIsCurrent(k, c);
    }
    DispatchIs(s, p, p, c);
  }

  lemma PreemptedIs(k: State, c: Task)
    requires Executes(k, c)
    ensures Preempted(k, T(k, c).prio) == [c]
  {
  }

  lemma SavedTopAlone(k: State, c: Task)
    requires Executes(k, c) && forall b: nat :: Bucket(k, b) != [] ==> b < T(k, c).prio
    ensures Top(Saved(k), T(k, c).prio)
  {
    hide Saved;
    SavedBucket(k, T(k, c).prio, 0);
    forall b: nat | Bucket(Saved(k), b) != [] ensures b <= T(k, c).prio { SavedBucket(k, b, 0); }
  }

  /** The idle task runs when nobody else can, and only then. */
  lemma SwitchIdles(k: State)
    requires Scheduled(k) && !Deferred(k)
    ensures PendSv(k).current == Some(IDLE) <==> (forall c :: !Executes(k, c)) && forall b :: Bucket(k, b) == []
    ensures PendSv(k).current == Some(IDLE) ==> PendSv(k) == k.(pendSv := false, current := Some(IDLE))
  {
    SavesThenSelects(k);
    SavedFacts(k);
    var s := Saved(k);
    assert ReadyBut(s, {});
    if s.bitmap == {} {
      forall b: nat ensures Bucket(k, b) == [] && Preempted(k, b) == [] { SavedBucket(k, b, 0); }
      forall c: Task ensures !Executes(k, c) { if Executes(k, c) { PreemptedIs(k, c); } }
    } else {
      BitsBounded(s);
      var p := HighestBit(s.bitmap, PRIO_MAX);
      assert exists b :: b in s.bitmap && b <= PRIO_MAX;
      hide Structured, Saved, HighestBit;
      HeadIsReady(s, p);
      Dispatches(s, p);
      DispatchIs(s, p, p, 0);
      SavedBucket(k, p, 0);
    }
  }

  // ---------- taking turns ----------

  /** The tasks of the running one's priority, in the order they will run. */
  function Circle(k: State): seq<Task>
    requires k.current.Some?
  {
    [k.current.value] + Bucket(k, T(k, k.current.value).prio)
  }

  /** Peers share the most urgent priority, none of them inside a call, and the scheduler is free. */
  ghost predicate Peers(k: State, circle: seq<Task>, p: nat) {
    && Scheduled(k) && k.lockCount == 0 && k.current.Some? && Executes(k, k.current.value) && T(k, k.current.value).prio == p
    && Circle(k) == circle && (forall t: Task :: t in circle ==> T(k, t).doing.None?)
    && forall b: nat :: Bucket(k, b) != [] ==> b <= p
  }

  function Turn(): seq<Action> { [Yield, Switch] }

  function Turns(n: nat): seq<Action> { if n == 0 then [] else Turn() + Turns(n - 1) }

  function Turned(circle: seq<Task>, n: nat): seq<Task>
    requires n <= |circle|
  {
    circle[n..] + circle[..n]
  }

  lemma YieldIs(k: State, circle: seq<Task>, p: nat)
    requires Peers(k, circle, p)
    ensures var k1 := SwitchRequest(k);
            && Enabled(k, Yield) && Apply(k, Yield) == k1 && k1 == k.(pendSv := true) && Peers(k1, circle, p) && Enabled(k1, Switch)
  {
    var k1 := SwitchRequest(k);
    RequestKeeps(k, {});
    assert k1 == k.(pendSv := true);
    assert forall t :: T(k1, t) == T(k, t);
    assert Live(k, k.current.value);
    hide Structured, NoMissed;
    assert forall b: nat :: Bucket(k1, b) == Bucket(k, b);
  }

  lemma PeersMeans(k: State, circle: seq<Task>, p: nat)
    requires Peers(k, circle, p)
    ensures Scheduled(k) && k.lockCount == 0 && !Deferred(k) && circle != [] && k.current == Some(circle[0]) && Executes(k, circle[0])
    ensures T(k, circle[0]).prio == p && Bucket(k, p) == circle[1..] && forall b: nat :: Bucket(k, b) != [] ==> b <= p
    ensures forall x: Task :: Executes(k, x) ==> x == circle[0]
    ensures forall t: Task :: t in circle ==> T(k, t).doing.None?
  {
  }

  lemma PeersAgain(k: State, circle: seq<Task>, p: nat)
    requires circle != [] && Scheduled(k) && k.lockCount == 0 && k.current == Some(circle[0]) && Executes(k, circle[0])
    requires T(k, circle[0]).prio == p && Bucket(k, p) == circle[1..] && forall b: nat :: Bucket(k, b) != [] ==> b <= p
    requires forall t: Task :: t in circle ==> T(k, t).doing.None?
    ensures Peers(k, circle, p)
  {
    assert circle == [circle[0]] + circle[1..];
    hide Scheduled;
  }

  lemma AloneTurns(k: State, c: Task, p: nat)
    requires Peers(k, [c], p)
    ensures Peers(PendSv(k), [c], p)
  {
    hide *;
    PeersMeans(k, [c], p);
    assert [c][1..] == [];
    assert forall b: nat :: Bucket(k, b) != [] ==> b < T(k, c).prio;
    SwitchLeavesTheHighest(k, c);
    SwitchSchedules(k);
    StillExecutes(k, PendSv(k), c);
    PeersAgain(PendSv(k), [c], p);
  }

  lemma StillExecutes(k: State, k': State, c: Task)
    requires Executes(k, c) && k'.current == Some(c) && T(k', c) == T(k, c)
    ensures Executes(k', c)
  {
  }

  lemma SwitchSchedules(k: State)
    requires Scheduled(k)
    ensures Scheduled(PendSv(k)) && PendSv(k).lockCount == k.lockCount
  {
    hide Scheduled, PendSv;
    PendSvKeeps(k);
  }

  lemma Overtaken(k: State, k': State, h: Task, x: Task)
    requires TakesOver(k, k', h) && IDLE !in k.tcb && Live(k, h)
    ensures k'.current == Some(h) && Executes(k', h) && T(k', x).doing == T(k, x).doing && T(k', x).prio == T(k, x).prio
  {
  }

  lemma IdleNotLive(k: State)
    requires Scheduled(k)
    ensures IDLE !in k.tcb
  {
  }

  lemma PeersTurn(k: State, circle: seq<Task>, p: nat)
    requires Peers(k, circle, p) && |circle| > 1
    ensures Peers(PendSv(k), circle[1..] + [circle[0]], p)
  {
    hide *;
    PeersMeans(k, circle, p);
    var c, h := circle[0], circle[1];
    assert circle[1..][0] == h && circle[1..] != [];
    TopIs(k, p);
    SwitchTakesTheHead(k, p);
    HeadNotRunning(k, p);
    IdleNotLive(k);
    SwitchSchedules(k);
    PreemptedIs(k, c);
    forall b: nat ensures b != p ==> Preempted(k, b) == [] { PreemptedOnly(k, c, b); }
    var k', circle' := PendSv(k), circle[1..] + [c];
    assert circle'[1..] == circle[1..][1..] + [c];
    forall t: Task | t in circle' ensures T(k', t).doing.None? { Overtaken(k, k', h, t); }
    Overtaken(k, k', h, h);
    PeersAgain(k', circle', p);
  }

  lemma TopIs(k: State, p: nat)
    requires Bucket(k, p) != [] && forall b: nat :: Bucket(k, b) != [] ==> b <= p
    ensures Top(k, p)
  {
  }

  lemma PreemptedOnly(k: State, c: Task, b: nat)
    requires Executes(k, c)
    ensures b != T(k, c).prio ==> Preempted(k, b) == []
  {
  }

  /** The first of the circle goes to its end. */
  lemma SwitchTurns(k: State, circle: seq<Task>, p: nat)
    requires Peers(k, circle, p)
    ensures Peers(PendSv(k), circle[1..] + [circle[0]], p)
  {
    hide *;
    PeersMeans(k, circle, p);
    if |circle| == 1 {
      assert circle == [circle[0]] && circle[1..] + [circle[0]] == circle;
      AloneTurns(k, circle[0], p);
    } else {
      PeersTurn(k, circle, p);
    }
  }

  lemma OneTurn(k: State, circle: seq<Task>, p: nat)
    requires Peers(k, circle, p)
    ensures IsRun(k, Turn()) && Peers(After(k, Turn()), circle[1..] + [circle[0]], p)
  {
    var k1 := SwitchRequest(k);
    YieldIs(k, circle, p);
    hide Peers, Enabled, Apply, SwitchRequest;
    SwitchTurns(k1, circle, p);
    assert Apply(k1, Switch) == PendSv(k1) by { SwitchApplies(k1); }
    FullQueues.TwoSteps(k, Yield, k1, Switch, PendSv(k1));
  }

  lemma SwitchApplies(k: State)
    ensures Apply(k, Switch) == PendSv(k)
  {
    hide PendSv;
  }

  /** Equals that only yield take turns: after n switches the circle has turned by n, so its n-th task runs, and
      when each has run once everything stands as at first. */
  lemma {:induction false} RoundRobin(k: State, circle: seq<Task>, p: nat, n: nat)
    requires Peers(k, circle, p) && n <= |circle|
    ensures circle != [] && IsRun(k, Turns(n)) && Peers(After(k, Turns(n)), Turned(circle, n), p)
    ensures After(k, Turns(n)).current == Some(circle[if n < |circle| then n else 0])
    decreases n
  {
    hide *;
    TurnsIs(n);
    PeersMeans(k, circle, p);
    TurnedIs(circle, n);
    if n == 0 {
      NoRun(k);
    } else {
      var next := circle[1..] + [circle[0]];
      OneTurn(k, circle, p);
      RoundRobin(After(k, Turn()), next, p, n - 1);
      FullQueues.RunJoins(k, Turn(), Turns(n - 1));
      PeersMeans(After(k, Turns(n)), Turned(circle, n), p);
    }
  }

  lemma NoRun(k: State)
    ensures IsRun(k, []) && After(k, []) == k
  {
  }

  lemma TurnsIs(n: nat)
    ensures Turns(n) == if n == 0 then [] else Turn() + Turns(n - 1)
  {
  }

  lemma TurnedIs(circle: seq<Task>, n: nat)
    requires n <= |circle| && circle != []
    ensures Turned(circle, 0) == circle
    ensures n > 0 ==> Turned(circle[1..] + [circle[0]], n - 1) == Turned(circle, n)
    ensures Turned(circle, n)[0] == circle[if n < |circle| then n else 0]
  {
    assert n > 0 ==> circle[..n] == [circle[0]] + circle[1..][..n - 1];
  }

  /** Nobody stands twice in the circle: in as many switches as it has tasks, each runs exactly once. */
  lemma EachOnce(k: State, circle: seq<Task>, p: nat, t: Task)
    requires Peers(k, circle, p)
    ensures multiset(circle)[t] <= 1
    ensures t in circle <==> (T(k, t).state == Ready || Executes(k, t)) && T(k, t).prio == p
  {
    assert Queues(k, p, t) == if T(k, t).state == Ready && T(k, t).prio == p then 1 else 0;
    assert circle == [k.current.value] + Bucket(k, p);
    assert multiset(circle) == multiset{k.current.value} + multiset(Bucket(k, p));
  }

  // ---------- the tick and the quantum ----------

  /** A ready task more urgent than p, and a ready task exactly as urgent. */
  ghost predicate ReadyAbove(k: State, p: nat) { exists t: Task :: T(k, t).state == Ready && T(k, t).prio > p }
  ghost predicate ReadyPeer(k: State, p: nat) { exists t: Task :: T(k, t).state == Ready && T(k, t).prio == p }

  lemma BitIsReady(k: State, p: nat)
    requires Scheduled(k)
    ensures p in k.bitmap <==> ReadyPeer(k, p)
    ensures p in k.bitmap <==> Bucket(k, p) != []
  {
    if p in k.bitmap {
      HeadIsReady(k, p);
      assert T(k, Bucket(k, p)[0]).state == Ready && T(k, Bucket(k, p)[0]).prio == p;
    }
    if ReadyPeer(k, p) {
      var t: Task :| T(k, t).state == Ready && T(k, t).prio == p;
      assert Queues(k, p, t) == 1;
    }
  }

  lemma BitsAreReady(k: State, p: nat)
    requires Scheduled(k)
    ensures (exists b :: b in k.bitmap && b > p) <==> ReadyAbove(k, p)
  {
    hide Scheduled;
    if b :| b in k.bitmap && b > p {
      BitIsReady(k, b);
      var t: Task :| T(k, t).state == Ready && T(k, t).prio == b;
      assert T(k, t).prio > p;
    }
    if ReadyAbove(k, p) {
      var t: Task :| T(k, t).state == Ready && T(k, t).prio > p;
      BitIsReady(k, T(k, t).prio) by { assert T(k, t).state == Ready && T(k, t).prio == T(k, t).prio; }
      assert ReadyPeer(k, T(k, t).prio);
    }
  }

  /** A reschedule is possible exactly when a ready task outranks the current one, or equals it once its quantum is
      spent - and never while the scheduler is locked. */
  lemma ReschedulesExactly(k: State, slice: nat)
    requires Scheduled(k) && k.current.Some?
    ensures var p := T(k, k.current.value).prio;
            Tickless.Reschedule(k, slice) <==> k.lockCount == 0 && (ReadyAbove(k, p) || (slice == 0 && ReadyPeer(k, p)))
  {
    hide Scheduled, ReadyAbove, ReadyPeer;
    BitsAreReady(k, T(k, k.current.value).prio);
    BitIsReady(k, T(k, k.current.value).prio);
  }

  lemma AdvanceSafe(s: Tickless.System, n: nat)
    requires Tickless.Ready(s)
    ensures Safe(Tickless.Advance(s, n).k)
    ensures Tickless.Advance(s, n).slice == 0 <==> s.slice <= n
  {
    hide Safe, WakeBlocked, TickUpdate;
    Tickless.WokenSafe(s, TM.TickWakes(s.tm, n));
    TickSafe(if TM.TickWakes(s.tm, n) then WakeBlocked(s.k, s.timerTask) else s.k, n);
  }

  lemma PendIs(s: Tickless.System)
    ensures Tickless.Pend(s) == if Tickless.Reschedule(s.k, s.slice) then s.(k := s.k.(pendSv := true)) else s
  {
    hide Tickless.Reschedule;
  }

  lemma SafeIsScheduled(k: State)
    requires Safe(k)
    ensures Scheduled(k)
  {
  }

  /** What an announcement asks for: it pends a switch exactly when, once its ticks have done their work, a ready
      task outranks the current one, or equals one whose quantum those ticks have used up. */
  lemma AnnouncePendsExactly(s: Tickless.System, n: nat)
    requires Tickless.Ready(s) && Tickless.Advance(s, n).k.current.Some?
    ensures var k := Tickless.Advance(s, n).k; var k' := Tickless.Announce(s, n).k; var p := T(k, k.current.value).prio;
            && (k'.pendSv <==> k.pendSv || (k.lockCount == 0 && (ReadyAbove(k, p) || (s.slice <= n && ReadyPeer(k, p)))))
            && k' == k.(pendSv := k'.pendSv)
  {
    hide *;
    var s1 := Tickless.Advance(s, n);
    AdvanceSafe(s, n);
    SafeIsScheduled(s1.k);
    ReschedulesExactly(s1.k, s1.slice);
    PendIs(s1);
    AnnounceIs(s, n);
  }

  lemma AnnounceIs(s: Tickless.System, n: nat)
    ensures Tickless.Announce(s, n) == Tickless.Pend(Tickless.Advance(s, n))
  {
    hide Tickless.Pend, Tickless.Advance;
  }

  /** Time slicing: when the quantum runs out beside a ready peer, and nobody is more urgent, the switch that follows
      gives the processor to the peer that has stood longest and puts the running task last. */
  lemma SpentQuantumRotates(s: Tickless.System, n: nat, c: Task)
    requires Tickless.Ready(s) && s.slice <= n && Executes(Tickless.Advance(s, n).k, c) && Tickless.Advance(s, n).k.lockCount == 0
    requires var k := Tickless.Advance(s, n).k; ReadyPeer(k, T(k, c).prio) && !ReadyAbove(k, T(k, c).prio)
    ensures var k := Tickless.Advance(s, n).k; var k1 := Tickless.Announce(s, n).k; var p := T(k, c).prio;
            && k1.pendSv && Bucket(k, p) != [] && PendSv(k1).current == Some(Bucket(k, p)[0]) && Bucket(k, p)[0] != c
            && Bucket(PendSv(k1), p) == Bucket(k, p)[1..] + [c]
  {
    hide *;
    var k, k1 := Tickless.Advance(s, n).k, Tickless.Announce(s, n).k;
    var p := T(k, c).prio;
    ExecutesIsCurrent(k, c);
    AdvanceSafe(s, n);
    SafeIsScheduled(k);
    AnnouncePendsExactly(s, n);
    BitIsReady(k, p);
    PendKeeps(k, c, p);
    forall b: nat | Bucket(k1, b) != [] ensures b <= p { BitIsReady(k, b); SameBucket(k, k1, b); NoneAbove(k, b, p); }
    SameBucket(k, k1, p);
    TopIs(k1, p);
    SwitchTakesTheHead(k1, p);
    HeadNotRunning(k1, p);
    PreemptedIs(k1, c);
    Overtaking(k1, PendSv(k1), Bucket(k1, p)[0]);
  }

  lemma Overtaking(k: State, k': State, h: Task)
    requires TakesOver(k, k', h)
    ensures k'.current == Some(h)
  {
  }

  lemma SameBucket(k: State, k1: State, b: nat)
    requires k1.ready == k.ready
    ensures Bucket(k1, b) == Bucket(k, b)
  {
  }

  lemma NoneAbove(k: State, b: nat, p: nat)
    requires ReadyPeer(k, b) && !ReadyAbove(k, p)
    ensures b <= p
  {
  }

  lemma PendKeeps(k: State, c: Task, p: nat)
    requires Scheduled(k) && Executes(k, c) && k.lockCount == 0 && T(k, c).prio == p
    ensures var k1 := k.(pendSv := true);
            && Scheduled(k1) && !Deferred(k1) && Executes(k1, c) && T(k1, c).prio == p && forall x: Task :: Executes(k1, x) ==> x == c
  {
    var k1 := k.(pendSv := true);
    assert forall t :: T(k1, t) == T(k, t);
    FlagsKeep(k, k1, {});
    hide Structured;
  }
}
