/** The single-core kernel as one state: task control blocks, the waiter list of every object, the
    ready buckets, the delay list and the switch-request flags, and the operations of os_task.c,
    os_task_mutex.c, os_mutex.c, os_sem.c, os_queue.c and os_kernel.c on it. Each operation is one
    critical section of the source; class Scheduler performs the same operations in place. */
module Kernel {
  import opened Sequences
  import DeltaList

  type Task = nat
  type Mutex = nat

  /** Id 0 names no task; as the running task it stands for the idle task, which is in no table. */
  const IDLE: Task := 0
  const PRIO_MAX: nat := 31
  const MAX_DEPTH: nat := 8

  datatype RunState = Inactive | Suspended | Ready | Running | Blocked

  /** A waiter list, named by the object that embeds it. */
  datatype WaitQ =
    | OfMutex(id: nat) | OfSem(id: nat) | Senders(id: nat) | Receivers(id: nat)

  /** One TCB. `timed` is delay_ticks != OS_WAIT_FOREVER; the ticks themselves are in the delay list.
      `doing` is the task's program counter: the blocking primitive it is inside of, if any. */
  datatype Tcb = Tcb(
    base: nat, prio: nat, state: RunState, timed: bool, system: bool,
    waitList: Option<WaitQ>, signaled: bool, wokenFrom: Option<WaitQ>,
    owned: seq<Mutex>, piOwner: Task, blockedOn: Option<Mutex>, blockedForever: bool,
    doing: Option<WaitQ>)

  const CLEARED: Tcb := Tcb(0, 0, Inactive, false, false, None, false, None, [], 0, None, false, None)

  datatype MutexObj = MutexObj(locked: bool, owner: Task)
  datatype SemObj = SemObj(count: nat, max: nat)
  datatype QueueMode = Normal | Overwrite
  datatype QueueObj = QueueObj(count: nat, capacity: nat, mode: QueueMode)

  datatype State = State(
    tcb: map<Task, Tcb>,
    waiters: map<WaitQ, seq<Task>>,
    mutexes: map<Mutex, MutexObj>, sems: map<nat, SemObj>, queues: map<nat, QueueObj>,
    ready: map<nat, seq<Task>>, bitmap: set<nat>,
    delay: seq<DeltaList.Entry>,
    current: Option<Task>, pendSv: bool, lockCount: nat, switchPending: bool)

  /** How long a blocking call is still willing to wait: OS_WAIT_NOTHING, a budget used up by earlier
      retries, ticks, or OS_WAIT_FOREVER. */
  datatype Wait = Nothing | Spent | For(ticks: nat) | Forever

  datatype Status = Ok | Waiting | BusyErr | TimedOut | EmptyErr | FullErr | NotOwner | ErrorErr

  // ---------- reading the state; objects are valid on zero-initialized storage ----------

  function T(k: State, t: Task): Tcb { if t in k.tcb then k.tcb[t] else CLEARED }
  function P(tcb: map<Task, Tcb>, t: Task): nat { if t in tcb then tcb[t].prio else 0 }
  function WaitersOf(k: State, q: WaitQ): seq<Task> { if q in k.waiters then k.waiters[q] else [] }
  function M(k: State, m: Mutex): MutexObj { if m in k.mutexes then k.mutexes[m] else MutexObj(false, 0) }
  function S(k: State, s: nat): SemObj { if s in k.sems then k.sems[s] else SemObj(0, 0) }
  function Q(k: State, q: nat): QueueObj { if q in k.queues then k.queues[q] else QueueObj(0, 0, Normal) }
  function Bucket(k: State, p: nat): seq<Task> { if p in k.ready then k.ready[p] else [] }

  /** os_task_find_by_id succeeds. */
  predicate Live(k: State, t: Task) { t in k.tcb }

  function SetTcb(k: State, t: Task, r: Tcb): State { k.(tcb := k.tcb[t := r]) }
  function SetWaiters(k: State, q: WaitQ, ws: seq<Task>): State { k.(waiters := k.waiters[q := ws]) }

  // ---------- switch requests ----------

  function SwitchRequest(k: State): State {
    if k.lockCount != 0 then k.(switchPending := true) else k.(pendSv := true)
  }

  function PreemptRequest(k: State, t: Task): State {
    if k.current.None? || T(k, t).prio > T(k, k.current.value).prio then SwitchRequest(k) else k
  }

  // ---------- ready buckets, waiter lists, delay list ----------

  function MakeReady(k: State, t: Task): State {
    var p := T(k, t).prio;
    k.(tcb := k.tcb[t := T(k, t).(state := Ready)],
       ready := k.ready[p := Bucket(k, p) + [t]],
       bitmap := k.bitmap + {p})
  }

  function LeaveReady(k: State, t: Task): State {
    var p := T(k, t).prio;
    var rest := Without(Bucket(k, p), t);
    k.(ready := k.ready[p := rest], bitmap := if rest == [] then k.bitmap - {p} else k.bitmap)
  }

  /** A waiter list after t joins it: in front of the first waiter of strictly lower priority. */
  function Ranked(tcb: map<Task, Tcb>, ws: seq<Task>, t: Task): seq<Task> {
    if ws == [] || P(tcb, ws[0]) < P(tcb, t) then [t] + ws else [ws[0]] + Ranked(tcb, ws[1..], t)
  }

  /** os_task_wait_node_insert. */
  function Join(k: State, q: WaitQ, t: Task): State { SetWaiters(k, q, Ranked(k.tcb, WaitersOf(k, q), t)) }

  function LeaveWaiters(k: State, q: WaitQ, t: Task): State {
    SetWaiters(k, q, Without(WaitersOf(k, q), t))
  }

  /** The state-list half of os_task_unlink. */
  function LeaveStateList(k: State, t: Task): State {
    if T(k, t).state == Ready then LeaveReady(k, t)
    else if T(k, t).state == Blocked && T(k, t).timed then k.(delay := DeltaList.Remove(k.delay, t))
    else k
  }

  // ---------- effective priority and its propagation (os_task_mutex.c) ----------

  /** A ready task moves to the tail of its new bucket; a raise may preempt. */
  function Rebucket(k: State, t: Task, p: nat): State {
    var k1 := MakeReady(SetTcb(LeaveReady(k, t), t, T(k, t).(prio := p)), t);
    if p > T(k, t).prio then PreemptRequest(k1, t) else k1
  }

  /** Lowering the running task may expose a ready one above it. */
  function LowerRunning(k: State, t: Task, p: nat): State {
    var k1 := SetTcb(k, t, T(k, t).(prio := p));
    if k.current == Some(t) && p < PRIO_MAX && (exists b :: b in k.bitmap && b > p) then SwitchRequest(k1) else k1
  }

  /** A task in no ready bucket; if it waits on an object it is re-sorted there. */
  function Requeue(k: State, t: Task, p: nat): State {
    var k1 := SetTcb(k, t, T(k, t).(prio := p));
    match T(k, t).waitList
    case None => k1
    case Some(q) => Join(LeaveWaiters(k1, q, t), q, t)
  }

  function EffectivePrioritySet(k: State, t: Task, p: nat): State {
    if p == T(k, t).prio then k
    else if T(k, t).state == Ready then Rebucket(k, t, p)
    else if T(k, t).state == Running && p < T(k, t).prio then LowerRunning(k, t, p)
    else Requeue(k, t, p)
  }

  function HeadPrio(k: State, m: Mutex): nat {
    var ws := WaitersOf(k, OfMutex(m));
    if ws == [] then 0 else T(k, ws[0]).prio
  }

  function MaxHead(k: State, owned: seq<Mutex>, acc: nat): nat {
    if owned == [] then acc
    else MaxHead(k, owned[1..], if HeadPrio(k, owned[0]) > acc then HeadPrio(k, owned[0]) else acc)
  }

  /** What os_task_mutex_effective_recompute computes: base priority or highest head waiter. */
  function Effective(k: State, t: Task): nat { MaxHead(k, T(k, t).owned, T(k, t).base) }

  /** os_task_mutex_priority_recompute: at most n links from t along blocked_on_mutex. */
  function PriorityRecompute(k: State, t: Task, n: nat): State
    decreases n
  {
    if n == 0 || !Live(k, t) then k
    else
      var k1 := EffectivePrioritySet(k, t, Effective(k, t));
      match T(k1, t).blockedOn
      case None => k1
      case Some(m) => PriorityRecompute(k1, M(k1, m).owner, n - 1)
  }

  /** os_task_mutex_priority_inherit by the running task c, about to wait behind owner o. */
  function PriorityInherit(k: State, c: Task, o: Task): State {
    if !Live(k, c) || !Live(k, o) then k
    else
      var k1 := SetTcb(k, c, T(k, c).(piOwner := o));
      if T(k1, c).prio <= T(k1, o).prio then k1
      else
        var k2 := EffectivePrioritySet(k1, o, T(k1, c).prio);
        match T(k2, o).blockedOn
        case None => k2
        case Some(m) => PriorityRecompute(k2, M(k2, m).owner, MAX_DEPTH)
  }

  /** The owner a departing waiter's boost is owed by: the mutex's current owner once the wait edge is
      published, the captured id before that. */
  function DebtOwner(k: State, t: Task): Task {
    match T(k, t).blockedOn case Some(m) => M(k, m).owner case None => T(k, t).piOwner
  }

  /** os_task_mutex_waiter_depart_tcb: t has left its queue. */
  function WaiterDepart(k: State, t: Task): State {
    var o := DebtOwner(k, t);
    var k1 := SetTcb(k, t, T(k, t).(piOwner := 0, blockedOn := None, blockedForever := false));
    if o != 0 then PriorityRecompute(k1, o, MAX_DEPTH) else k1
  }

  function Unlink(k: State, t: Task): State {
    var k1 := LeaveStateList(k, t);
    match T(k1, t).waitList
    case None => k1
    case Some(q) =>
      var k2 := LeaveWaiters(k1, q, t);
      WaiterDepart(SetTcb(k2, t, T(k2, t).(waitList := None)), t)
  }

  function OwnerLink(k: State, c: Task, m: Mutex): State {
    if !Live(k, c) then k
    else
      var k1 := SetTcb(k, c, T(k, c).(owned := T(k, c).owned + [m]));
      if WaitersOf(k1, OfMutex(m)) != [] then PriorityRecompute(k1, c, MAX_DEPTH) else k1
  }

  function OwnerUnlink(k: State, o: Task, m: Mutex): State {
    if !Live(k, o) then k
    else
      var lifting := WaitersOf(k, OfMutex(m)) != [];
      var k1 := SetTcb(k, o, T(k, o).(owned := Without(T(k, o).owned, m)));
      if lifting then PriorityRecompute(k1, o, MAX_DEPTH) else k1
  }

  // ---------- blocking and waking ----------

  /** os_task_wait_begin for the running task c. */
  function WaitBegin(k: State, c: Task, q: WaitQ, w: Wait): State {
    var k1 := Join(k, q, c);
    var k2 := SetTcb(k1, c, T(k1, c).(waitList := Some(q), signaled := false, wokenFrom := None,
                                      timed := w.For?, state := Blocked, doing := Some(q)));
    var k3 := if w.For? then k2.(delay := DeltaList.Insert(k2.delay, c, w.ticks)) else k2;
    SwitchRequest(k3)
  }

  /** os_task_wait_end_locked; from an interrupt it touches nothing. */
  function WaitEnd(k: State, isr: bool): State {
    if isr || k.current.None? || !Live(k, k.current.value) then k
    else
      var c := k.current.value;
      SetTcb(k, c, T(k, c).(signaled := false, wokenFrom := None, piOwner := 0,
                            blockedOn := None, blockedForever := false, doing := None))
  }

  /** The body wake_one and wake_match share: waiter t of q leaves with a signal it has yet to use. */
  function WakeWaiter(k: State, q: WaitQ, t: Task): State {
    var k1 := Unlink(k, t);
    var k2 := SetTcb(k1, t, T(k1, t).(signaled := true, wokenFrom := Some(q)));
    PreemptRequest(MakeReady(k2, t), t)
  }

  function WakeOne(k: State, q: WaitQ): State {
    if WaitersOf(k, q) == [] then k else WakeWaiter(k, q, WaitersOf(k, q)[0])
  }

  /** os_task_wake_locked: a forced wake reads as a signal from no list. */
  function WakeBlocked(k: State, t: Task): State {
    if !Live(k, t) || T(k, t).state != Blocked then k
    else
      var k1 := Unlink(k, t);
      PreemptRequest(MakeReady(SetTcb(k1, t, T(k1, t).(signaled := true)), t), t)
  }

  /** The due arm of os_task_tick_update: the wait timed out, so `signaled` stays false. */
  function ExpireWait(k: State, t: Task): State {
    PreemptRequest(MakeReady(Unlink(k, t), t), t)
  }

  /** os_task_wake_compensate: hand an unused signal on before t is suspended or deleted. */
  function WakeCompensate(k: State, t: Task): State {
    var r := T(k, t);
    if r.state == Ready && r.signaled && r.wokenFrom.Some?
    then WakeOne(SetTcb(k, t, r.(wokenFrom := None)), r.wokenFrom.value)
    else k
  }

  // ---------- the task API ----------

  function TaskCreate(k: State, t: Task, p: nat, system: bool): State {
    SetTcb(k, t, CLEARED.(base := p, prio := p, state := Suspended, system := system))
  }

  function TaskStart(k: State, t: Task): State {
    var blocked := T(k, t).state == Blocked;
    var k1 := Unlink(k, t);
    var k2 := if blocked then SetTcb(k1, t, T(k1, t).(signaled := true)) else k1;
    var k3 := if k2.current == Some(t) then SetTcb(k2, t, T(k2, t).(state := Running)) else MakeReady(k2, t);
    PreemptRequest(k3, t)
  }

  /** A pause or delete is refused for service tasks, and for the caller while it holds the scheduler. */
  predicate Refused(k: State, t: Task) {
    T(k, t).system || (k.current == Some(t) && k.lockCount != 0)
  }

  function TaskPause(k: State, t: Task): State {
    if Refused(k, t) then k
    else
      var k1 := WakeCompensate(k, t);
      var k2 := if T(k1, t).state == Blocked then SetTcb(k1, t, T(k1, t).(signaled := true)) else k1;
      var k3 := Unlink(k2, t);
      var k4 := SetTcb(k3, t, T(k3, t).(state := Suspended));
      if k.current == Some(t) then SwitchRequest(k4) else k4
  }

  function TaskDelete(k: State, t: Task): State {
    if Refused(k, t) then k
    else
      var k1 := Unlink(WakeCompensate(k, t), t);
      var k2 := k1.(tcb := k1.tcb - {t});
      if k.current == Some(t) then SwitchRequest(k2.(current := None)) else k2
  }

  function PrioritySet(k: State, t: Task, p: nat): State {
    if T(k, t).system then k else PriorityRecompute(SetTcb(k, t, T(k, t).(base := p)), t, MAX_DEPTH)
  }

  /** os_task_sleep_ticks: the running task leaves for a time, or until a forced wake. */
  function Sleep(k: State, c: Task, w: Wait): State {
    if k.lockCount != 0 || w.Nothing? || w.Spent? then k
    else
      var k1 := SetTcb(k, c, T(k, c).(state := Blocked, timed := w.For?));
      SwitchRequest(if w.For? then k1.(delay := DeltaList.Insert(k1.delay, c, w.ticks)) else k1)
  }

  /** os_task_tick_update. */
  function TickUpdate(k: State, ticks: nat): State {
    if ticks == 0 then k else ExpireAll(k.(delay := DeltaList.Remaining(k.delay, ticks)), DeltaList.Expired(k.delay, ticks))
  }

  /** The due sleepers leave in order; their own entries are already spent. */
  function ExpireAll(k: State, due: seq<Task>): State
    decreases |due|
  {
    if due == [] then k else ExpireAll(ExpireWait(k, due[0]), due[1..])
  }

  // ---------- the context switch: PendSV saves, then selects ----------

  /** os_arch_highest_bit_get, searching down from bit `top`. */
  function HighestBit(b: set<nat>, top: nat): (p: nat)
    ensures (exists x :: x in b && x <= top) ==> p in b && p <= top && forall x :: x in b && x <= top ==> x <= p
  {
    if top in b || top == 0 then top else HighestBit(b, top - 1)
  }

  function SaveCurrent(k: State): State {
    match k.current
    case None => k
    case Some(c) =>
      if (c == IDLE || T(k, c).state == Running) && k.lockCount != 0 then k.(switchPending := true)
      else if c != IDLE && T(k, c).state == Running then MakeReady(k, c)
      else k
  }

  function SelectNext(k: State): State {
    if k.lockCount != 0 && k.current.Some? && (k.current == Some(IDLE) || T(k, k.current.value).state == Running) then k
    else if k.bitmap == {} then k.(current := Some(IDLE))
    else
      var p := HighestBit(k.bitmap, PRIO_MAX);
      if Bucket(k, p) == [] then k.(current := Some(IDLE))
      else
        var t := Bucket(k, p)[0];
        var rest := Bucket(k, p)[1..];
        k.(tcb := k.tcb[t := T(k, t).(state := Running)],
           ready := k.ready[p := rest], bitmap := if rest == [] then k.bitmap - {p} else k.bitmap,
           current := Some(t))
  }

  function PendSv(k: State): State { SelectNext(SaveCurrent(k.(pendSv := false))) }

  function KernelLock(k: State): State { k.(lockCount := k.lockCount + 1) }

  function KernelUnlock(k: State): State {
    if k.lockCount == 0 then k
    else if k.lockCount > 1 then k.(lockCount := k.lockCount - 1)
    else k.(lockCount := 0, switchPending := false, pendSv := k.pendSv || k.switchPending)
  }

  // ---------- the blocking objects: one pass of each retry loop ----------

  predicate CanBlock(k: State, isr: bool) { !isr && k.lockCount == 0 }

  function MutexLock(k: State, c: Task, m: Mutex, w: Wait): (State, Status) {
    if !M(k, m).locked then
      (WaitEnd(OwnerLink(k.(mutexes := k.mutexes[m := MutexObj(true, c)]), c, m), false), Ok)
    else if M(k, m).owner == c || w.Nothing? || !CanBlock(k, false) then
      (WaitEnd(WaiterDepart(k, c), false), BusyErr)
    else if w.Spent? then
      (WaitEnd(WaiterDepart(k, c), false), TimedOut)
    else
      var k0 := SetTcb(k, c, T(k, c).(doing := Some(OfMutex(m))));
      var k1 := PriorityInherit(k0, c, M(k, m).owner);
      var k2 := SetTcb(k1, c, T(k1, c).(blockedOn := Some(m), blockedForever := w.Forever?));
      (WaitBegin(k2, c, OfMutex(m), w), Waiting)
  }

  function MutexUnlock(k: State, c: Task, m: Mutex): (State, Status) {
    if !M(k, m).locked then (k, ErrorErr)
    else if M(k, m).owner != 0 && M(k, m).owner != c then (k, NotOwner)
    else
      var o := M(k, m).owner;
      var k1 := OwnerUnlink(k.(mutexes := k.mutexes[m := MutexObj(false, 0)]), o, m);
      (WakeOne(k1, OfMutex(m)), Ok)
  }

  function SemGive(k: State, s: nat): (State, Status) {
    if S(k, s).count >= S(k, s).max then (k, FullErr)
    else (WakeOne(k.(sems := k.sems[s := S(k, s).(count := S(k, s).count + 1)]), OfSem(s)), Ok)
  }

  function SemTake(k: State, c: Task, s: nat, w: Wait, isr: bool): (State, Status) {
    if S(k, s).count > 0 then
      (WaitEnd(k.(sems := k.sems[s := S(k, s).(count := S(k, s).count - 1)]), isr), Ok)
    else if w.Nothing? || !CanBlock(k, isr) then (WaitEnd(k, isr), EmptyErr)
    else if w.Spent? then (WaitEnd(k, isr), TimedOut)
    else (WaitBegin(k, c, OfSem(s), w), Waiting)
  }

  function QueueSend(k: State, c: Task, q: nat, w: Wait, isr: bool): (State, Status) {
    var o := Q(k, q);
    if o.count < o.capacity then
      (WaitEnd(WakeOne(k.(queues := k.queues[q := o.(count := o.count + 1)]), Receivers(q)), isr), Ok)
    else if o.mode == Overwrite && o.capacity != 0 && (w.Nothing? || !CanBlock(k, isr) || w.Spent?) then
      (WaitEnd(WakeOne(k, Receivers(q)), isr), Ok)
    else if w.Nothing? || !CanBlock(k, isr) then (WaitEnd(k, isr), FullErr)
    else if w.Spent? then (WaitEnd(k, isr), TimedOut)
    else (WaitBegin(k, c, Senders(q), w), Waiting)
  }

  function QueueReceive(k: State, c: Task, q: nat, w: Wait, isr: bool): (State, Status) {
    var o := Q(k, q);
    if o.count > 0 then
      (WaitEnd(WakeOne(k.(queues := k.queues[q := o.(count := o.count - 1)]), Senders(q)), isr), Ok)
    else if w.Nothing? || !CanBlock(k, isr) then (WaitEnd(k, isr), EmptyErr)
    else if w.Spent? then (WaitEnd(k, isr), TimedOut)
    else (WaitBegin(k, c, Receivers(q), w), Waiting)
  }

  /** The tail of every retry loop when the wait ran out: settle a mutex debt, close the wait. */
  function WaitTimedOut(k: State, c: Task): State {
    var k1 := if T(k, c).doing.Some? && T(k, c).doing.value.OfMutex? then WaiterDepart(k, c) else k;
    WaitEnd(k1, false)
  }
}
