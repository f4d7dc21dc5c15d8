/** The kernel in place: the same fields as Kernel.State, updated step by step by the loops of os_task.c,
    os_task_mutex.c, os_mutex.c, os_sem.c and os_queue.c. Every method leaves exactly the state its
    function in module Kernel describes, so all that is proved of those functions is true of the object. */
module KernelObject {
  import opened Sequences
  import opened Kernel
  import opened Links
  import opened Operations
  import opened Timeouts
  import opened Ticking
  import Deadlock
  import DeltaList
  import Runs

  // ---------- one turn of each loop ----------

  /** The walk of os_task_wait_node_insert passes a waiter of no lower priority. */
  lemma RankPasses(tcb: map<Task, Tcb>, ws: seq<Task>, i: nat, t: Task)
    requires i < |ws| && P(tcb, ws[i]) >= P(tcb, t)
    ensures ws[..i] + Ranked(tcb, ws[i..], t) == ws[..i + 1] + Ranked(tcb, ws[i + 1..], t)
  {
    assert ws[i..][0] == ws[i] && ws[i..][1..] == ws[i + 1..];
    assert ws[..i + 1] == ws[..i] + [ws[i]];
  }

  lemma RankStops(tcb: map<Task, Tcb>, ws: seq<Task>, i: nat, t: Task)
    requires i <= |ws| && (i < |ws| ==> P(tcb, ws[i]) < P(tcb, t))
    ensures ws[..i] + Ranked(tcb, ws[i..], t) == ws[..i] + [t] + ws[i..]
  {
    if i < |ws| { assert ws[i..][0] == ws[i]; }
  }

  lemma MaxHeadPasses(k: State, owned: seq<Mutex>, i: nat, acc: nat)
    requires i < |owned|
    ensures MaxHead(k, owned[i..], acc) == MaxHead(k, owned[i + 1..], if HeadPrio(k, owned[i]) > acc then HeadPrio(k, owned[i]) else acc)
  {
    assert owned[i..][0] == owned[i] && owned[i..][1..] == owned[i + 1..];
  }

  /** One link of the inheritance walk. */
  lemma RecomputeLink(k: State, k1: State, t: Task, n: nat)
    requires n > 0 && Live(k, t) && k1 == EffectivePrioritySet(k, t, Effective(k, t))
    ensures T(k1, t).blockedOn.None? ==> PriorityRecompute(k, t, n) == k1
    ensures T(k1, t).blockedOn.Some? ==> PriorityRecompute(k, t, n) == PriorityRecompute(k1, M(k1, T(k1, t).blockedOn.value).owner, n - 1)
  {
    hide EffectivePrioritySet, Effective;
  }

  lemma RecomputeEnds(k: State, t: Task, n: nat)
    requires n == 0 || !Live(k, t)
    ensures PriorityRecompute(k, t, n) == k
  {
  }

  // ---------- the tick's walk along the delay list ----------

  /** What remains to be done for a window of `ticks`. */
  function TickRest(k: State, ticks: nat): State {
    ExpireAll(k.(delay := DeltaList.Remaining(k.delay, ticks)), DeltaList.Expired(k.delay, ticks))
  }

  /** The head of the delay list has slept out. */
  lemma HeadSleeps(k: State)
    requires Delayed(k) && k.delay != []
    ensures var h := k.delay[0].id; Live(k, h) && T(k, h).state == Blocked && T(k, h).timed && h !in DeltaList.Ids(k.delay[1..])
    ensures DelayedBut(k.(delay := k.delay[1..]), multiset{k.delay[0].id})
  {
    var h := k.delay[0].id;
    var rest := k.(delay := k.delay[1..]);
    HeadEntry(k, h);
    assert Entries(k, h) + multiset{}[h] == if Sleeping(T(k, h)) then 1 else 0;
    assert h in DeltaList.Ids(rest.delay) <==> Entries(rest, h) > 0;
    hide Entries;
    forall t ensures Entries(rest, t) + multiset{h}[t] == if Sleeping(T(rest, t)) then 1 else 0 {
      assert Entries(k, t) + multiset{}[t] == if Sleeping(T(k, t)) then 1 else 0;
      HeadEntry(k, t);
      assert T(rest, t) == T(k, t);
    }
  }

  lemma HeadEntry(k: State, t: Task)
    requires k.delay != []
    ensures Entries(k, t) == Entries(k.(delay := k.delay[1..]), t) + if t == k.delay[0].id then 1 else 0
  {
    assert DeltaList.Ids(k.delay) == [k.delay[0].id] + DeltaList.Ids(k.delay[1..]);
  }

  /** A spent head, its share set to nothing, is unlinked as if it had left already. */
  lemma SpentHeadUnlinks(k: State)
    requires k.delay != []
    requires var h := k.delay[0].id; T(k, h).state == Blocked && T(k, h).timed && h !in DeltaList.Ids(k.delay[1..])
    ensures var l := k.delay; var h := l[0].id;
            Unlink(k.(delay := [DeltaList.Entry(h, 0)] + l[1..]), h) == Unlink(k.(delay := l[1..]), h)
  {
    var l := k.delay;
    var h := l[0].id;
    var a, b := k.(delay := [DeltaList.Entry(h, 0)] + l[1..]), k.(delay := l[1..]);
    assert DeltaList.Remove(a.delay, h) == l[1..] by {
      assert a.delay[1..] == l[1..];
      if |l| > 1 { assert DeltaList.Handover(a.delay) == [DeltaList.Entry(l[1].id, l[1].delta)] + l[2..] == l[1..]; }
    }
    DeltaList.RemoveMiss(b.delay, h);
    assert T(a, h) == T(k, h) && T(b, h) == T(k, h);
    assert LeaveStateList(a, h) == b && LeaveStateList(b, h) == b;
    hide LeaveStateList, LeaveWaiters, WaiterDepart;
  }

  lemma SpentHeadExpires(k: State)
    requires Delayed(k) && k.delay != []
    ensures var l := k.delay; var h := l[0].id;
            ExpireWait(k.(delay := [DeltaList.Entry(h, 0)] + l[1..]), h) == ExpireWait(k.(delay := l[1..]), h)
  {
    hide Unlink, DelayedBut;
    HeadSleeps(k);
    SpentHeadUnlinks(k);
  }

  /** One due head is woken; the rest of the window is the others'. */
  lemma TickReleasesHead(k: State, ticks: nat)
    requires Linked(k) && Delayed(k) && k.delay != [] && k.delay[0].delta <= ticks
    ensures var rest := k.(delay := k.delay[1..]); var k1 := ExpireWait(rest, k.delay[0].id);
            TickRest(k, ticks) == TickRest(k1, ticks - k.delay[0].delta) && Linked(k1) && Delayed(k1) && k1.delay == k.delay[1..]
  {
    var l := k.delay;
    var h, n := l[0].id, ticks - l[0].delta;
    var rest := k.(delay := l[1..]);
    var due, left := DeltaList.Expired(l[1..], n), DeltaList.Remaining(l[1..], n);
    hide *;
    HeadSleeps(k);
    WithoutHead(k, left);
    SplitAtHead(l, ticks);
    StillAbsent(l[1..], n, h);
    ExpireBlind(rest, h, left, false);
    ExpireWaitFrame(rest, h);
    ExpireDelayed(rest, h, multiset{h});
    NothingDueNow(ExpireWait(rest, h), multiset{h} - multiset{h});
    ExpireDelay(rest, h);
    ReleasedHead(k, ticks, rest, h, due, left);
  }

  lemma SplitAtHead(l: seq<DeltaList.Entry>, ticks: nat)
    requires l != [] && l[0].delta <= ticks
    ensures DeltaList.Expired(l, ticks) == [l[0].id] + DeltaList.Expired(l[1..], ticks - l[0].delta)
    ensures DeltaList.Remaining(l, ticks) == DeltaList.Remaining(l[1..], ticks - l[0].delta)
  {
  }

  lemma NothingDueNow(k: State, due: multiset<Task>)
    requires DelayedBut(k, due) && due == multiset{}
    ensures Delayed(k)
  {
  }

  lemma WithoutHead(k: State, left: seq<DeltaList.Entry>)
    requires Linked(k) && k.delay != [] && Live(k, k.delay[0].id)
    ensures var rest := k.(delay := k.delay[1..]); var h := k.delay[0].id;
            Linked(rest) && Live(rest, h) && T(rest, h) == T(k, h)
    ensures k.(delay := left) == Aside(k.(delay := k.delay[1..]), left, false)
  {
    var rest := k.(delay := k.delay[1..]);
    assert T(rest, k.delay[0].id) == T(k, k.delay[0].id);
    assert OnlyLists(k, rest);
    hide Linked;
    OnlyListsLinked(k, rest);
  }

  lemma StillAbsent(l: seq<DeltaList.Entry>, n: nat, h: Task)
    requires h !in DeltaList.Ids(l)
    ensures h !in DeltaList.Ids(DeltaList.Remaining(l, n))
  {
    AdvanceIds(l, n);
    assert h !in multiset(DeltaList.Ids(l));
    assert h in DeltaList.Ids(DeltaList.Remaining(l, n)) ==> h in multiset(DeltaList.Ids(DeltaList.Remaining(l, n)));
  }

  lemma ReleasedHead(k: State, ticks: nat, rest: State, h: Task, due: seq<Task>, left: seq<DeltaList.Entry>)
    requires DeltaList.Expired(k.delay, ticks) == [h] + due && DeltaList.Remaining(k.delay, ticks) == left
    requires k.(delay := left) == Aside(rest, left, false)
    requires ExpireWait(Aside(rest, left, false), h) == Aside(ExpireWait(rest, h), left, false)
    requires k.delay != [] && k.delay[0].delta <= ticks && ExpireWait(rest, h).delay == k.delay[1..]
    requires due == DeltaList.Expired(k.delay[1..], ticks - k.delay[0].delta) && left == DeltaList.Remaining(k.delay[1..], ticks - k.delay[0].delta)
    ensures TickRest(k, ticks) == TickRest(ExpireWait(rest, h), ticks - k.delay[0].delta)
  {
    assert ([h] + due)[0] == h && ([h] + due)[1..] == due;
    hide ExpireWait, DeltaList.Expired, DeltaList.Remaining;
  }

  lemma TickEnds(k: State, ticks: nat)
    requires k.delay == [] || k.delay[0].delta > ticks
    ensures TickRest(k, ticks) == if k.delay == [] then k
              else k.(delay := [DeltaList.Entry(k.delay[0].id, k.delay[0].delta - ticks)] + k.delay[1..])
  {
  }

  /** The dispatch arm of SelectNext. */
  function HeadTaken(k: State, p: nat): State {
    if Bucket(k, p) == [] then k.(current := Some(IDLE))
    else
      var t := Bucket(k, p)[0];
      var rest := Bucket(k, p)[1..];
      k.(tcb := k.tcb[t := T(k, t).(state := Running)],
         ready := k.ready[p := rest], bitmap := if rest == [] then k.bitmap - {p} else k.bitmap,
         current := Some(t))
  }

  class Scheduler {
    var tcb: map<Task, Tcb>
    var waiters: map<WaitQ, seq<Task>>
    var mutexes: map<Mutex, MutexObj>
    var sems: map<nat, SemObj>
    var queues: map<nat, QueueObj>
    var ready: map<nat, seq<Task>>
    var bitmap: set<nat>
    var delay: seq<DeltaList.Entry>
    var current: Option<Task>
    var pendSv: bool
    var lockCount: nat
    var switchPending: bool

    function View(): State
      reads this
    {
      State(tcb, waiters, mutexes, sems, queues, ready, bitmap, delay, current, pendSv, lockCount, switchPending)
    }

    /** The kernel at start: no task, the objects configured. */
    constructor (semaphores: map<nat, SemObj>, queueObjects: map<nat, QueueObj>)
      ensures Runs.Initial(View()) && sems == semaphores && queues == queueObjects
    {
      tcb, waiters, mutexes, sems, queues, ready := map[], map[], map[], semaphores, queueObjects, map[];
      bitmap, delay, current, pendSv, lockCount, switchPending := {}, [], Some(IDLE), false, 0, false;
    }

    /** A task's control block, cleared when the table has none. */
    function At(t: Task): Tcb
      reads this
    {
      if t in tcb then tcb[t] else CLEARED
    }

    function Waiters(q: WaitQ): seq<Task>
      reads this
    {
      if q in waiters then waiters[q] else []
    }

    function Prio(t: Task): nat
      reads this
    {
      if t in tcb then tcb[t].prio else 0
    }

    function MutexAt(m: Mutex): MutexObj
      reads this
    {
      if m in mutexes then mutexes[m] else MutexObj(false, 0)
    }

    // ---------- switch requests ----------

    /** os_task_switch_request. */
    method SwitchRequest()
      modifies this
      ensures View() == Kernel.SwitchRequest(old(View()))
    {
      if lockCount != 0 { switchPending := true; } else { pendSv := true; }
    }

    /** os_task_preempt_request. */
    method PreemptRequest(t: Task)
      modifies this
      ensures View() == Kernel.PreemptRequest(old(View()), t)
    {
      if current.None? || At(t).prio > At(current.value).prio { SwitchRequest(); }
    }

    // ---------- ready buckets, waiter lists, delay list ----------

    /** os_task_make_ready. */
    method MakeReady(t: Task)
      modifies this
      ensures View() == Kernel.MakeReady(old(View()), t)
    {
      var p := At(t).prio;
      tcb := tcb[t := At(t).(state := Ready)];
      ready := ready[p := (if p in ready then ready[p] else []) + [t]];
      bitmap := bitmap + {p};
    }

    /** The ready arm of os_task_unlink. */
    method LeaveReady(t: Task)
      modifies this
      ensures View() == Kernel.LeaveReady(old(View()), t)
    {
      var p := At(t).prio;
      var rest := Without(if p in ready then ready[p] else [], t);
      ready := ready[p := rest];
      if rest == [] { bitmap := bitmap - {p}; }
    }

    /** os_task_wait_node_insert: in front of the first waiter of strictly lower priority. */
    method WaitNodeInsert(q: WaitQ, t: Task)
      modifies this
      ensures View() == Join(old(View()), q, t)
    {
      var ws, i: nat := Waiters(q), 0;
      assert ws[0..] == ws;
      while i < |ws| && Prio(ws[i]) >= Prio(t)
        invariant i <= |ws| && View() == old(View())
        invariant Ranked(tcb, ws, t) == ws[..i] + Ranked(tcb, ws[i..], t)
      {
        RankPasses(tcb, ws, i, t);
        i := i + 1;
      }
      RankStops(tcb, ws, i, t);
      waiters := waiters[q := ws[..i] + [t] + ws[i..]];
    }

    method WaitNodeRemove(q: WaitQ, t: Task)
      modifies this
      ensures View() == LeaveWaiters(old(View()), q, t)
    {
      waiters := waiters[q := Without(Waiters(q), t)];
    }

    /** The state-list half of os_task_unlink. */
    method LeaveStateList(t: Task)
      modifies this
      ensures View() == Kernel.LeaveStateList(old(View()), t)
    {
      if At(t).state == Ready {
        LeaveReady(t);
      } else if At(t).state == Blocked && At(t).timed {
        var rest, _, _ := DeltaList.RemoveWalk(delay, t);
        delay := rest;
      }
    }

    // ---------- effective priority and its propagation ----------

    /** os_task_effective_priority_set. */
    method EffectivePrioritySet(t: Task, p: nat)
      modifies this
      ensures View() == Kernel.EffectivePrioritySet(old(View()), t, p)
    {
      hide Kernel.LeaveReady, Kernel.MakeReady, Kernel.PreemptRequest, Kernel.SwitchRequest, Join, LeaveWaiters;
      var r := At(t);
      if p == r.prio {
      } else if r.state == Ready {
        LeaveReady(t);
        tcb := tcb[t := r.(prio := p)];
        MakeReady(t);
        if p > r.prio { PreemptRequest(t); }
      } else if r.state == Running && p < r.prio {
        tcb := tcb[t := r.(prio := p)];
        if current == Some(t) && p < PRIO_MAX && exists b | b in bitmap :: b > p { SwitchRequest(); }
      } else {
        tcb := tcb[t := r.(prio := p)];
        if r.waitList.Some? {
          WaitNodeRemove(r.waitList.value, t);
          WaitNodeInsert(r.waitList.value, t);
        }
      }
    }

    /** os_task_mutex_effective_recompute: the owner's base priority, or the highest first waiter of a mutex
        it holds. */
    method EffectiveRecompute(t: Task)
      modifies this
      ensures View() == Kernel.EffectivePrioritySet(old(View()), t, Effective(old(View()), t))
    {
      hide Kernel.EffectivePrioritySet;
      var owned, p, i: nat := At(t).owned, At(t).base, 0;
      assert owned[0..] == owned;
      while i < |owned|
        invariant i <= |owned| && View() == old(View())
        invariant Effective(View(), t) == MaxHead(View(), owned[i..], p)
      {
        MaxHeadPasses(View(), owned, i, p);
        var held := Waiters(OfMutex(owned[i]));
        if held != [] {
          var top := At(held[0]).prio;
          if top > p { p := top; }
        }
        i := i + 1;
      }
      EffectivePrioritySet(t, p);
    }

    /** os_task_mutex_priority_recompute: from t outward along the mutexes waited on, at most MAX_DEPTH
        links. */
    method PriorityRecompute(t: Task)
      modifies this
      ensures View() == Kernel.PriorityRecompute(old(View()), t, MAX_DEPTH)
    {
      hide Kernel.PriorityRecompute, Kernel.EffectivePrioritySet, Effective;
      var task, depth: nat := t, 0;
      while task in tcb && depth < MAX_DEPTH
        invariant depth <= MAX_DEPTH
        invariant Kernel.PriorityRecompute(View(), task, MAX_DEPTH - depth) == Kernel.PriorityRecompute(old(View()), t, MAX_DEPTH)
      {
        ghost var k := View();
        EffectiveRecompute(task);
        RecomputeLink(k, View(), task, MAX_DEPTH - depth);
        var waitingOn := At(task).blockedOn;
        if waitingOn.None? { return; }
        task := MutexAt(waitingOn.value).owner;
        depth := depth + 1;
      }
      RecomputeEnds(View(), task, MAX_DEPTH - depth);
    }

    /** os_task_mutex_priority_inherit. */
    method PriorityInherit(c: Task, o: Task)
      modifies this
      ensures View() == Kernel.PriorityInherit(old(View()), c, o)
    {
      hide Kernel.PriorityRecompute, Kernel.EffectivePrioritySet;
      if c in tcb && o in tcb {
        tcb := tcb[c := At(c).(piOwner := o)];
        if At(c).prio > At(o).prio {
          EffectivePrioritySet(o, At(c).prio);
          if At(o).blockedOn.Some? {
            PriorityRecompute(MutexAt(At(o).blockedOn.value).owner);
          }
        }
      }
    }

    /** os_task_mutex_waiter_depart_tcb. */
    method WaiterDepart(t: Task)
      modifies this
      ensures View() == Kernel.WaiterDepart(old(View()), t)
    {
      hide Kernel.PriorityRecompute;
      var r := At(t);
      var owner := if r.blockedOn.Some? then MutexAt(r.blockedOn.value).owner else r.piOwner;
      tcb := tcb[t := r.(piOwner := 0, blockedOn := None, blockedForever := false)];
      if owner != 0 { PriorityRecompute(owner); }
    }

    /** os_task_unlink. */
    method Unlink(t: Task)
      modifies this
      ensures View() == Kernel.Unlink(old(View()), t)
    {
      hide Kernel.LeaveStateList, LeaveWaiters, Kernel.WaiterDepart;
      LeaveStateList(t);
      if At(t).waitList.Some? {
        WaitNodeRemove(At(t).waitList.value, t);
        tcb := tcb[t := At(t).(waitList := None)];
        WaiterDepart(t);
      }
    }

    /** os_task_mutex_owner_link. */
    method OwnerLink(c: Task, m: Mutex)
      modifies this
      ensures View() == Kernel.OwnerLink(old(View()), c, m)
    {
      hide Kernel.PriorityRecompute;
      if c in tcb {
        tcb := tcb[c := At(c).(owned := At(c).owned + [m])];
        if Waiters(OfMutex(m)) != [] { PriorityRecompute(c); }
      }
    }

    /** os_task_mutex_owner_unlink_and_reprioritize. */
    method OwnerUnlink(o: Task, m: Mutex)
      modifies this
      ensures View() == Kernel.OwnerUnlink(old(View()), o, m)
    {
      hide Kernel.PriorityRecompute;
      if o in tcb {
        var lifting := Waiters(OfMutex(m)) != [];
        tcb := tcb[o := At(o).(owned := Without(At(o).owned, m))];
        if lifting { PriorityRecompute(o); }
      }
    }

    // ---------- blocking and waking ----------

    /** os_task_wait_begin. */
    method WaitBegin(c: Task, q: WaitQ, w: Wait)
      modifies this
      ensures View() == Kernel.WaitBegin(old(View()), c, q, w)
    {
      hide Join, Kernel.SwitchRequest;
      WaitNodeInsert(q, c);
      tcb := tcb[c := At(c).(waitList := Some(q), signaled := false, wokenFrom := None, timed := w.For?,
                             state := Blocked, doing := Some(q))];
      if w.For? { delay := DeltaList.InsertWalk(delay, c, w.ticks); }
      SwitchRequest();
    }

    /** os_task_wait_end_locked. */
    method WaitEnd(isr: bool)
      modifies this
      ensures View() == Kernel.WaitEnd(old(View()), isr)
    {
      if !isr && current.Some? && current.value in tcb {
        var c := current.value;
        tcb := tcb[c := At(c).(signaled := false, wokenFrom := None, piOwner := 0, blockedOn := None,
                               blockedForever := false, doing := None)];
      }
    }

    /** What os_task_waiters_wake_one and os_task_waiters_wake_match do to a waiter. */
    method WakeWaiter(q: WaitQ, t: Task)
      modifies this
      ensures View() == Kernel.WakeWaiter(old(View()), q, t)
    {
      hide Kernel.Unlink, Kernel.MakeReady, Kernel.PreemptRequest;
      Unlink(t);
      tcb := tcb[t := At(t).(signaled := true, wokenFrom := Some(q))];
      MakeReady(t);
      PreemptRequest(t);
    }

    /** os_task_waiters_wake_one. */
    method WakeOne(q: WaitQ)
      modifies this
      ensures View() == Kernel.WakeOne(old(View()), q)
    {
      hide Kernel.WakeWaiter;
      if Waiters(q) != [] { WakeWaiter(q, Waiters(q)[0]); }
    }

    /** os_task_wake_locked. */
    method Wake(t: Task)
      modifies this
      ensures View() == WakeBlocked(old(View()), t)
    {
      hide Kernel.Unlink, Kernel.MakeReady, Kernel.PreemptRequest;
      if t in tcb && At(t).state == Blocked {
        Unlink(t);
        tcb := tcb[t := At(t).(signaled := true)];
        MakeReady(t);
        PreemptRequest(t);
      }
    }

    /** os_task_wake_compensate. */
    method WakeCompensate(t: Task)
      modifies this
      ensures View() == Kernel.WakeCompensate(old(View()), t)
    {
      hide Kernel.WakeOne;
      var r := At(t);
      if r.state == Ready && r.signaled && r.wokenFrom.Some? {
        tcb := tcb[t := r.(wokenFrom := None)];
        WakeOne(r.wokenFrom.value);
      }
    }

    // ---------- the task API ----------

    method Create(t: Task, p: nat, system: bool)
      modifies this
      ensures View() == TaskCreate(old(View()), t, p, system)
    {
      tcb := tcb[t := CLEARED.(base := p, prio := p, state := Suspended, system := system)];
    }

    /** os_task_start. */
    method Start(t: Task)
      modifies this
      ensures View() == TaskStart(old(View()), t)
    {
      hide Kernel.Unlink, Kernel.MakeReady, Kernel.PreemptRequest;
      var blocked := At(t).state == Blocked;
      Unlink(t);
      if blocked { tcb := tcb[t := At(t).(signaled := true)]; }
      if current == Some(t) { tcb := tcb[t := At(t).(state := Running)]; } else { MakeReady(t); }
      PreemptRequest(t);
    }

    /** os_task_pause; true when it was carried out. */
    method Pause(t: Task) returns (done: bool)
      modifies this
      ensures View() == TaskPause(old(View()), t) && done == !Refused(old(View()), t)
    {
      hide Kernel.Unlink, Kernel.WakeCompensate, Kernel.SwitchRequest;
      done := !(At(t).system || (current == Some(t) && lockCount != 0));
      if done {
        var self := current == Some(t);
        WakeCompensate(t);
        if At(t).state == Blocked { tcb := tcb[t := At(t).(signaled := true)]; }
        Unlink(t);
        tcb := tcb[t := At(t).(state := Suspended)];
        if self { SwitchRequest(); }
      }
    }

    /** os_task_delete. */
    method Delete(t: Task) returns (done: bool)
      modifies this
      ensures View() == TaskDelete(old(View()), t) && done == !Refused(old(View()), t)
    {
      hide Kernel.Unlink, Kernel.WakeCompensate, Kernel.SwitchRequest;
      done := !(At(t).system || (current == Some(t) && lockCount != 0));
      if done {
        var self := current == Some(t);
        WakeCompensate(t);
        Unlink(t);
        tcb := tcb - {t};
        if self {
          current := None;
          SwitchRequest();
        }
      }
    }

    /** os_task_priority_set. */
    method SetPriority(t: Task, p: nat) returns (done: bool)
      modifies this
      ensures View() == PrioritySet(old(View()), t, p) && done == !old(At(t)).system
    {
      hide Kernel.PriorityRecompute;
      done := !At(t).system;
      if done {
        tcb := tcb[t := At(t).(base := p)];
        PriorityRecompute(t);
      }
    }

    /** os_task_sleep_ticks. */
    method SleepFor(c: Task, w: Wait)
      modifies this
      ensures View() == Sleep(old(View()), c, w)
    {
      hide Kernel.SwitchRequest;
      if lockCount == 0 && !w.Nothing? && !w.Spent? {
        tcb := tcb[c := At(c).(state := Blocked, timed := w.For?)];
        if w.For? { delay := DeltaList.InsertWalk(delay, c, w.ticks); }
        SwitchRequest();
      }
    }

    /** The due arm of os_task_tick_update: nothing marks a signal, so the wait reads as timed out. */
    method Expire(t: Task)
      modifies this
      ensures View() == ExpireWait(old(View()), t)
    {
      hide Kernel.Unlink, Kernel.MakeReady, Kernel.PreemptRequest;
      Unlink(t);
      MakeReady(t);
      PreemptRequest(t);
    }

    /** The head's share is spent, so what it hands on is nothing. */
    method SpendHead(left: nat) returns (rest: nat)
      requires delay != [] && delay[0].delta <= left
      modifies this`delay
      ensures rest == left - old(delay)[0].delta
      ensures View() == old(View()).(delay := [DeltaList.Entry(old(delay)[0].id, 0)] + old(delay)[1..])
    {
      rest := left - delay[0].delta;
      delay := [DeltaList.Entry(delay[0].id, 0)] + delay[1..];
    }

    /** One turn of the walk. */
    method ReleaseHead(left: nat) returns (rest: nat)
      requires Linked(View()) && Delayed(View()) && delay != [] && delay[0].delta <= left
      modifies this
      ensures Linked(View()) && Delayed(View()) && TickRest(View(), rest) == TickRest(old(View()), left)
      ensures delay == old(delay[1..])
    {
      hide TickRest, ExpireWait, Linked, Delayed;
      var h := delay[0].id;
      TickReleasesHead(View(), left);
      SpentHeadExpires(View());
      rest := SpendHead(left);
      Expire(h);
    }

    /** os_task_tick_update: the head spends its share of the window and is woken, as long as the window
        reaches it. */
    method TickUpdate(ticks: nat)
      requires Linked(View()) && Delayed(View())
      modifies this
      ensures View() == Kernel.TickUpdate(old(View()), ticks)
    {
      if ticks == 0 { return; }
      ghost var k0 := View();
      var left: nat := ticks;
      assert Kernel.TickUpdate(k0, ticks) == TickRest(k0, ticks);
      hide TickRest, Kernel.TickUpdate, ExpireWait, Linked, DelayedBut;
      while delay != [] && delay[0].delta <= left
        invariant Linked(View()) && Delayed(View()) && TickRest(View(), left) == TickRest(k0, ticks)
        decreases |delay|
      {
        left := ReleaseHead(left);
      }
      ghost var k := View();
      TickEnds(k, left);
      if delay != [] {
        delay := [DeltaList.Entry(delay[0].id, delay[0].delta - left)] + delay[1..];
      }
    }

    // ---------- the context switch ----------

    /** os_task_stack_save_current, on one core. */
    method SaveCurrent()
      modifies this
      ensures View() == Kernel.SaveCurrent(old(View()))
    {
      if current.Some? {
        var c := current.value;
        if (c == IDLE || At(c).state == Running) && lockCount != 0 {
          switchPending := true;
        } else if c != IDLE && At(c).state == Running {
          MakeReady(c);
        }
      }
    }

    /** os_task_stack_select_next, on one core. */
    method SelectNext()
      modifies this
      ensures View() == Kernel.SelectNext(old(View()))
    {
      hide HighestBit;
      if lockCount != 0 && current.Some? && (current == Some(IDLE) || At(current.value).state == Running) { return; }
      if bitmap == {} {
        current := Some(IDLE);
      } else {
        TakeHead(HighestBit(bitmap, PRIO_MAX));
      }
    }

    /** The first task of bucket p runs; idle, should the bucket be empty. */
    method TakeHead(p: nat)
      modifies this
      ensures View() == HeadTaken(old(View()), p)
    {
      var list := if p in ready then ready[p] else [];
      var next := IDLE;
      if list != [] {
        next := list[0];
        ready := ready[p := list[1..]];
        if list[1..] == [] { bitmap := bitmap - {p}; }
        tcb := tcb[next := At(next).(state := Running)];
      }
      current := Some(next);
    }

    method PendSv()
      modifies this
      ensures View() == Kernel.PendSv(old(View()))
    {
      hide Kernel.SaveCurrent, Kernel.SelectNext;
      pendSv := false;
      SaveCurrent();
      SelectNext();
    }

    /** os_kernel_lock. */
    method LockScheduler()
      modifies this
      ensures View() == KernelLock(old(View()))
    {
      lockCount := lockCount + 1;
    }

    /** os_kernel_unlock: the outermost one takes the switch that was put off. */
    method UnlockScheduler()
      modifies this
      ensures View() == KernelUnlock(old(View()))
    {
      if lockCount != 0 {
        lockCount := lockCount - 1;
        if lockCount == 0 {
          var due := switchPending;
          switchPending := false;
          if due { pendSv := true; }
        }
      }
    }

    // ---------- the blocking objects: one pass of each retry loop ----------

    /** One pass of os_mutex_lock. */
    method MutexLock(c: Task, m: Mutex, w: Wait) returns (status: Status)
      modifies this
      ensures (View(), status) == Kernel.MutexLock(old(View()), c, m, w)
    {
      hide Kernel.OwnerLink, Kernel.WaitEnd, Kernel.WaiterDepart, Kernel.PriorityInherit, Kernel.WaitBegin;
      if !MutexAt(m).locked {
        mutexes := mutexes[m := MutexObj(true, c)];
        OwnerLink(c, m);
        WaitEnd(false);
        status := Ok;
      } else if MutexAt(m).owner == c || w.Nothing? || lockCount != 0 {
        WaiterDepart(c);
        WaitEnd(false);
        status := BusyErr;
      } else if w.Spent? {
        WaiterDepart(c);
        WaitEnd(false);
        status := TimedOut;
      } else {
        LockWait(c, m, w);
        status := Waiting;
      }
    }

    /** The owner is lifted, the wait edge published, the caller queued. */
    method LockWait(c: Task, m: Mutex, w: Wait)
      modifies this
      ensures View() == Kernel.WaitBegin(LockPending(old(View()), c, m, w), c, OfMutex(m), w)
    {
      hide Kernel.PriorityInherit, Kernel.WaitBegin;
      tcb := tcb[c := At(c).(doing := Some(OfMutex(m)))];
      PriorityInherit(c, MutexAt(m).owner);
      tcb := tcb[c := At(c).(blockedOn := Some(m), blockedForever := w.Forever?)];
      WaitBegin(c, OfMutex(m), w);
    }

    /** os_mutex_unlock. */
    method MutexUnlock(c: Task, m: Mutex) returns (status: Status)
      modifies this
      ensures (View(), status) == Kernel.MutexUnlock(old(View()), c, m)
    {
      hide Kernel.OwnerUnlink, Kernel.WakeOne;
      if !MutexAt(m).locked {
        status := ErrorErr;
      } else if MutexAt(m).owner != 0 && MutexAt(m).owner != c {
        status := NotOwner;
      } else {
        var owner := MutexAt(m).owner;
        mutexes := mutexes[m := MutexObj(false, 0)];
        OwnerUnlink(owner, m);
        WakeOne(OfMutex(m));
        status := Ok;
      }
    }

    /** os_task_mutex_deadlock_check: would c, waiting for m, close a cycle of unbounded waits? */
    method DeadlockCheck(c: Task, m: Mutex) returns (cycle: bool)
      ensures cycle == Deadlock.DeadlockCheck(View(), c, m)
    {
      var link, depth: nat := Some(m), 0;
      cycle := false;
      while depth < MAX_DEPTH && link.Some?
        invariant depth <= MAX_DEPTH
        invariant Deadlock.DeadlockCheck(View(), c, m) == (link.Some? && Deadlock.CycleFrom(View(), c, link.value, MAX_DEPTH - depth))
      {
        var owner := MutexAt(link.value).owner;
        if owner !in tcb { return; }
        if owner == c { return true; }
        link := if At(owner).blockedForever then At(owner).blockedOn else None;
        depth := depth + 1;
      }
    }

    function SemAt(s: nat): SemObj
      reads this
    {
      if s in sems then sems[s] else SemObj(0, 0)
    }

    /** os_sem_give. */
    method SemGive(s: nat) returns (status: Status)
      modifies this
      ensures (View(), status) == Kernel.SemGive(old(View()), s)
    {
      hide Kernel.WakeOne;
      if SemAt(s).count >= SemAt(s).max {
        status := FullErr;
      } else {
        sems := sems[s := SemAt(s).(count := SemAt(s).count + 1)];
        WakeOne(OfSem(s));
        status := Ok;
      }
    }

    /** One pass of os_sem_take. */
    method SemTake(c: Task, s: nat, w: Wait, isr: bool) returns (status: Status)
      modifies this
      ensures (View(), status) == Kernel.SemTake(old(View()), c, s, w, isr)
    {
      hide Kernel.WaitEnd, Kernel.WaitBegin;
      if SemAt(s).count > 0 {
        sems := sems[s := SemAt(s).(count := SemAt(s).count - 1)];
        WaitEnd(isr);
        status := Ok;
      } else if w.Nothing? || isr || lockCount != 0 {
        WaitEnd(isr);
        status := EmptyErr;
      } else if w.Spent? {
        WaitEnd(isr);
        status := TimedOut;
      } else {
        WaitBegin(c, OfSem(s), w);
        status := Waiting;
      }
    }

    function QueueAt(q: nat): QueueObj
      reads this
    {
      if q in queues then queues[q] else QueueObj(0, 0, Normal)
    }

    /** One pass of os_queue_send; the items themselves are in module QueueRing. */
    method QueueSend(c: Task, q: nat, w: Wait, isr: bool) returns (status: Status)
      modifies this
      ensures (View(), status) == Kernel.QueueSend(old(View()), c, q, w, isr)
    {
      hide Kernel.WaitEnd, Kernel.WaitBegin, Kernel.WakeOne;
      var o := QueueAt(q);
      if o.count < o.capacity {
        queues := queues[q := o.(count := o.count + 1)];
        WakeOne(Receivers(q));
        WaitEnd(isr);
        status := Ok;
      } else if o.mode == Overwrite && o.capacity != 0 && (w.Nothing? || isr || lockCount != 0 || w.Spent?) {
        WakeOne(Receivers(q));
        WaitEnd(isr);
        status := Ok;
      } else if w.Nothing? || isr || lockCount != 0 {
        WaitEnd(isr);
        status := FullErr;
      } else if w.Spent? {
        WaitEnd(isr);
        status := TimedOut;
      } else {
        WaitBegin(c, Senders(q), w);
        status := Waiting;
      }
    }

    /** One pass of os_queue_receive. */
    method QueueReceive(c: Task, q: nat, w: Wait, isr: bool) returns (status: Status)
      modifies this
      ensures (View(), status) == Kernel.QueueReceive(old(View()), c, q, w, isr)
    {
      hide Kernel.WaitEnd, Kernel.WaitBegin, Kernel.WakeOne;
      var o := QueueAt(q);
      if o.count > 0 {
        queues := queues[q := o.(count := o.count - 1)];
        WakeOne(Senders(q));
        WaitEnd(isr);
        status := Ok;
      } else if w.Nothing? || isr || lockCount != 0 {
        WaitEnd(isr);
        status := EmptyErr;
      } else if w.Spent? {
        WaitEnd(isr);
        status := TimedOut;
      } else {
        WaitBegin(c, Receivers(q), w);
        status := Waiting;
      }
    }

    /** The tail of every retry loop when the wait ran out. */
    method WaitTimedOut(c: Task)
      modifies this
      ensures View() == Kernel.WaitTimedOut(old(View()), c)
    {
      hide Kernel.WaiterDepart, Kernel.WaitEnd;
      if At(c).doing.Some? && At(c).doing.value.OfMutex? { WaiterDepart(c); }
      WaitEnd(false);
    }

    // ---------- every step of a run ----------

    /** Any one critical section, as the caller of a run performs it: the kernel's safety is kept. */
    method Do(a: Runs.Action)
      requires Runs.Safe(View()) && Runs.Enabled(View(), a)
      modifies this
      ensures View() == Runs.Apply(old(View()), a) && Runs.Safe(View())
    {
      Runs.StepIsSafe(View(), a);
      SafeMeans(View());
      hide *;
      Perform(a);
    }

    method Perform(a: Runs.Action)
      requires Linked(View()) && Delayed(View())
      modifies this
      ensures View() == Runs.Apply(old(View()), a)
    {
      hide *;
      if OnObject(a) { PerformOnObject(a); } else { PerformOnTask(a); }
    }

    function Caller(): Task
      reads this
    {
      if current.Some? then current.value else IDLE
    }

    /** Task calls, ticks and switches. */
    method PerformOnTask(a: Runs.Action)
      requires Linked(View()) && Delayed(View()) && !OnObject(a)
      modifies this
      ensures View() == Runs.Apply(old(View()), a)
    {
      hide Kernel.TaskCreate, Kernel.TaskStart, Kernel.TaskPause, Kernel.TaskDelete, Kernel.PrioritySet, Kernel.WakeBlocked;
      hide Kernel.Sleep, Kernel.SwitchRequest, Kernel.TickUpdate, Kernel.PendSv, Kernel.KernelLock;
      hide Kernel.KernelUnlock, Linked, Delayed;
      match a
      case Create(t, p, system) => Create(t, p, system);
      case Start(t) => Start(t);
      case Pause(t) => var _ := Pause(t);
      case Delete(t) => var _ := Delete(t);
      case SetPriority(t, p) => var _ := SetPriority(t, p);
      case Wake(t) => Wake(t);
      case SleepFor(w) => SleepFor(Caller(), w);
      case Yield => SwitchRequest();
      case Tick(ticks) => TickUpdate(ticks);
      case Switch => PendSv();
      case LockScheduler => LockScheduler();
      case UnlockScheduler => UnlockScheduler();
    }

    /** One pass through a blocking object. */
    method PerformOnObject(a: Runs.Action)
      requires OnObject(a)
      modifies this
      ensures View() == Runs.Apply(old(View()), a)
    {
      hide *;
      if OnQueue(a) { PerformOnQueue(a); } else { PerformOnLock(a); }
    }

    method PerformOnLock(a: Runs.Action)
      requires OnObject(a) && !OnQueue(a)
      modifies this
      ensures View() == Runs.Apply(old(View()), a)
    {
      hide Kernel.MutexLock, Kernel.MutexUnlock, Kernel.SemGive, Kernel.SemTake, Kernel.WaitTimedOut, Kernel.WaiterDepart;
      var c := Caller();
      match a
      case Lock(m, w) => var _ := MutexLock(c, m, w);
      case Unlock(m) => var _ := MutexUnlock(c, m);
      case Give(s) => var _ := SemGive(s);
      case Take(s, w, isr) => var _ := SemTake(c, s, w, isr);
      case Depart => WaiterDepart(c);
      case GiveUp => WaitTimedOut(c);
    }

    method PerformOnQueue(a: Runs.Action)
      requires OnQueue(a)
      modifies this
      ensures View() == Runs.Apply(old(View()), a)
    {
      hide Kernel.QueueSend, Kernel.QueueReceive;
      var c := Caller();
      match a
      case Send(q, w, isr) => var _ := QueueSend(c, q, w, isr);
      case Receive(q, w, isr) => var _ := QueueReceive(c, q, w, isr);
      case SetMode(q, mode) => queues := queues[q := QueueAt(q).(mode := mode)];
    }
  }

  predicate OnQueue(a: Runs.Action) { a.Send? || a.Receive? || a.SetMode? }

  predicate OnObject(a: Runs.Action) {
    a.Lock? || a.Unlock? || a.Give? || a.Take? || a.Send? || a.Receive? || a.SetMode? || a.Depart? || a.GiveUp?
  }

  lemma SafeMeans(k: State)
    requires Runs.Safe(k)
    ensures Linked(k) && Delayed(k)
  {
  }
}
