/** Dispatch on any number of cores (os_task.c): saving and selecting are two steps, and any other core
    may act between them. What is proved is that a task executes on one core at a time and resumes from
    where it last stopped. */
module Dispatch {
  import opened Sequences

  const PRIO_MAX: nat := 31

  /** Every core has an idle task of its own, which is in no table and no ready list. */
  datatype Runner = IdleOf(core: nat) | Of(id: nat)

  datatype RunState = Inactive | Suspended | Ready | Running | Blocked

  /** An empty affinity names every core; no running core is OS_CONFIG_CORE_COUNT. */
  datatype Tcb = Tcb(state: RunState, prio: nat, affinity: set<nat>, runningCore: Option<nat>, stackPtr: nat)

  const CLEARED: Tcb := Tcb(Inactive, 0, {}, None, 0)

  /** os_task_current[], os_kernel_lock_count[] and os_kernel_switch_pending[] of one core. */
  datatype Core = Core(current: Option<Runner>, lockCount: nat, switchPending: bool)

  /** What the core really does: run a context - of no task while booting, or after the task deleted
      itself - or run PendSV, between its two halves. */
  datatype Cpu = Executing(who: Option<Runner>, sp: nat) | Switching

  /** `left` records where each task stood when it last stopped executing; the kernel has no such field. */
  datatype State = State(
    tcb: map<Runner, Tcb>, ready: map<nat, seq<Runner>>, core: map<nat, Core>, cpu: map<nat, Cpu>, left: map<Runner, nat>)

  function T(s: State, w: Runner): Tcb { if w in s.tcb then s.tcb[w] else CLEARED }
  function Bucket(s: State, p: nat): seq<Runner> { if p in s.ready then s.ready[p] else [] }
  function C(s: State, c: nat): Core { if c in s.core then s.core[c] else Core(None, 0, false) }
  function CpuOf(s: State, c: nat): Cpu { if c in s.cpu then s.cpu[c] else Executing(None, 0) }
  function LeftAt(s: State, w: Runner): nat { if w in s.left then s.left[w] else 0 }

  function SetTcb(s: State, w: Runner, r: Tcb): State { s.(tcb := s.tcb[w := r]) }

  // ---------- the two halves of PendSV ----------

  function MakeReady(s: State, w: Runner): State {
    var p := T(s, w).prio;
    SetTcb(s, w, T(s, w).(state := Ready)).(ready := s.ready[p := Bucket(s, p) + [w]])
  }

  function LeaveReady(s: State, w: Runner): State {
    var p := T(s, w).prio;
    s.(ready := s.ready[p := Without(Bucket(s, p), w)])
  }

  /** os_task_stack_save_current: the current task's pointer is stored; unless the scheduler is locked
      around it, the task is then free for any core. */
  function Save(s: State, c: nat): State
    requires CpuOf(s, c).Executing?
  {
    var cpu := CpuOf(s, c);
    var s0 := s.(cpu := s.cpu[c := Switching], left := if cpu.who.Some? then s.left[cpu.who.value := cpu.sp] else s.left);
    match C(s, c).current
    case None => s0
    case Some(w) =>
      var s1 := SetTcb(s0, w, T(s, w).(stackPtr := cpu.sp));
      if T(s, w).state == Running && C(s, c).lockCount != 0 then
        s1.(core := s.core[c := C(s, c).(switchPending := true)])
      else
        var s2 := SetTcb(s1, w, T(s1, w).(runningCore := None));
        if T(s, w).state != Running then s2
        else if w == IdleOf(c) then SetTcb(s2, w, T(s2, w).(state := Ready))
        else MakeReady(s2, w)
  }

  /** A ready task this core may take: allowed here, and not still switching out elsewhere. */
  predicate Eligible(s: State, c: nat, w: Runner) {
    (T(s, w).affinity == {} || c in T(s, w).affinity) && T(s, w).runningCore.None?
  }

  /** The walk along one ready list. */
  function FirstEligible(s: State, c: nat, ws: seq<Runner>): Option<Runner>
    decreases |ws|
  {
    if ws == [] then None else if Eligible(s, c, ws[0]) then Some(ws[0]) else FirstEligible(s, c, ws[1..])
  }

  /** The search from priority p downwards. */
  function Pick(s: State, c: nat, p: nat): Option<Runner>
    decreases p
  {
    var found := FirstEligible(s, c, Bucket(s, p));
    if found.Some? || p == 0 then found else Pick(s, c, p - 1)
  }

  predicate HandsBack(s: State, c: nat) {
    C(s, c).lockCount != 0 && C(s, c).current.Some? && T(s, C(s, c).current.value).state == Running
  }

  /** os_task_stack_select_next: a locked core gets its own task back; otherwise the pick, or idle. */
  function Chosen(s: State, c: nat): Runner {
    if HandsBack(s, c) then C(s, c).current.value
    else match Pick(s, c, PRIO_MAX) case None => IdleOf(c) case Some(w) => w
  }

  function Select(s: State, c: nat): State {
    var w := Chosen(s, c);
    var s0 := s.(cpu := s.cpu[c := Executing(Some(w), T(s, w).stackPtr)]);
    if HandsBack(s, c) then s0
    else
      var s1 := if Pick(s, c, PRIO_MAX).Some? then LeaveReady(s0, w) else s0;
      SetTcb(s1, w, T(s, w).(state := Running, runningCore := Some(c))).(core := s.core[c := C(s, c).(current := Some(w))])
  }

  // ---------- what else the cores do ----------

  /** os_task_running_core finds the task in os_task_current[]. */
  predicate Found(s: State, w: Runner) { exists c :: c in s.core && s.core[c].current == Some(w) }

  /** The ready-list half of os_task_unlink. */
  function Unlink(s: State, w: Runner): State { if T(s, w).state == Ready then LeaveReady(s, w) else s }

  /** A pause or delete is refused for a task current on another core, and for the caller's own while it
      holds the scheduler. */
  predicate Refused(s: State, c: nat, w: Runner) {
    var self := C(s, c).current == Some(w);
    (!self && Found(s, w)) || (self && C(s, c).lockCount != 0)
  }

  datatype Step =
    | Work(c: nat, sp: nat)
    | SaveHalf(c: nat)
    | SelectHalf(c: nat)
    | Lock(c: nat)
    | Unlock(c: nat)
    | Block(c: nat)
    | Wake(w: Runner)
    | Pause(c: nat, w: Runner)
    | Delete(c: nat, w: Runner)
    | Create(w: Runner, prio: nat, affinity: set<nat>, sp: nat)
    | Start(w: Runner)
    | Pin(w: Runner, affinity: set<nat>)
    | Reprioritize(w: Runner, p: nat)

  /** The task that calls the kernel from core c. */
  predicate Calls(s: State, c: nat) {
    CpuOf(s, c).Executing? && CpuOf(s, c).who.Some? && T(s, CpuOf(s, c).who.value).state == Running
  }

  predicate Enabled(s: State, a: Step) {
    match a
    case Work(c, _) => CpuOf(s, c).Executing?
    case SaveHalf(c) => CpuOf(s, c).Executing?
    case SelectHalf(c) => CpuOf(s, c).Switching?
    case Lock(c) => Calls(s, c)
    case Unlock(c) => Calls(s, c) && C(s, c).lockCount != 0
    case Block(c) => Calls(s, c) && CpuOf(s, c).who.value.Of? && C(s, c).lockCount == 0
    case Wake(w) => w.Of? && w in s.tcb && T(s, w).state == Blocked
    case Pause(c, w) => Calls(s, c) && w.Of? && w in s.tcb && !Refused(s, c, w)
    case Delete(c, w) => Calls(s, c) && w.Of? && w in s.tcb && !Refused(s, c, w)
    case Create(w, p, _, _) => w.Of? && w !in s.tcb && p <= PRIO_MAX
    case Start(w) => w.Of? && w in s.tcb
    case Pin(w, _) => w.Of? && w in s.tcb
    case Reprioritize(w, p) => w.Of? && w in s.tcb && p <= PRIO_MAX
  }

  function Apply(s: State, a: Step): State
    requires Enabled(s, a)
  {
    match a
    case Work(c, sp) => s.(cpu := s.cpu[c := CpuOf(s, c).(sp := sp)])
    case SaveHalf(c) => Save(s, c)
    case SelectHalf(c) => Select(s, c)
    case Lock(c) => s.(core := s.core[c := C(s, c).(lockCount := C(s, c).lockCount + 1)])
    case Unlock(c) =>
      s.(core := s.core[c := C(s, c).(lockCount := C(s, c).lockCount - 1,
                                      switchPending := C(s, c).lockCount != 1 && C(s, c).switchPending)])
    case Block(c) => SetTcb(s, CpuOf(s, c).who.value, T(s, CpuOf(s, c).who.value).(state := Blocked))
    case Wake(w) => MakeReady(s, w)
    case Pause(c, w) => SetTcb(Unlink(s, w), w, T(s, w).(state := Suspended))
    case Delete(c, w) => Deleted(s, c, w)
    case Create(w, p, affinity, sp) => SetTcb(s, w, Tcb(Suspended, p, affinity, None, sp)).(left := s.left[w := sp])
    case Start(w) => if Found(s, w) then SetTcb(Unlink(s, w), w, T(s, w).(state := Running)) else MakeReady(Unlink(s, w), w)
    case Pin(w, affinity) => SetTcb(s, w, T(s, w).(affinity := affinity))
    case Reprioritize(w, p) => Reprioritized(s, w, p)
  }

  /** A deleted caller keeps the core until PendSV, as a context no table entry stands for. */
  function Deleted(s: State, c: nat, w: Runner): State {
    var s1 := Unlink(s, w).(tcb := s.tcb - {w}, left := s.left - {w});
    if C(s, c).current == Some(w) && CpuOf(s, c).Executing? then
      s1.(core := s.core[c := C(s, c).(current := None)], cpu := s.cpu[c := CpuOf(s, c).(who := None)])
    else s1
  }

  function Reprioritized(s: State, w: Runner, p: nat): State {
    if T(s, w).state == Ready then MakeReady(SetTcb(LeaveReady(s, w), w, T(s, w).(prio := p)), w)
    else SetTcb(s, w, T(s, w).(prio := p))
  }

  // ---------- the invariant ----------

  /** A core executes its current task, and the task is marked with the core. */
  predicate Owns(s: State, c: nat) {
    CpuOf(s, c).Executing? ==>
      C(s, c).current == CpuOf(s, c).who && (CpuOf(s, c).who.Some? ==> T(s, CpuOf(s, c).who.value).runningCore == Some(c))
  }

  ghost predicate Owned(s: State) { forall c: nat :: Owns(s, c) }

  /** A marked task is executing there, or about to be handed back by its locked scheduler. */
  predicate HeldBy(s: State, w: Runner, c: nat) {
    C(s, c).current == Some(w) && (if CpuOf(s, c).Executing? then CpuOf(s, c).who == Some(w) else C(s, c).lockCount != 0)
  }

  ghost predicate Held(s: State) { forall w :: T(s, w).runningCore.Some? ==> HeldBy(s, w, T(s, w).runningCore.value) }

  /** A locked scheduler has a running task, marked with its core. */
  predicate LockHolds(s: State, c: nat) {
    C(s, c).lockCount != 0 ==>
      C(s, c).current.Some? && T(s, C(s, c).current.value).runningCore == Some(c) && T(s, C(s, c).current.value).state == Running
  }

  ghost predicate Locked(s: State) { forall c: nat :: LockHolds(s, c) }

  /** The task stands still: no core executes it. */
  predicate AtRest(s: State, w: Runner) { T(s, w).runningCore.Some? ==> CpuOf(s, T(s, w).runningCore.value).Switching? }

  /** The stored pointer of a task at rest is where it stopped. */
  ghost predicate Rested(s: State) { forall w :: AtRest(s, w) ==> T(s, w).stackPtr == LeftAt(s, w) }

  /** Idle tasks stay on their core. */
  ghost predicate Idles(s: State) { forall c: nat, d :: T(s, IdleOf(c)).runningCore == Some(d) ==> d == c }

  function Queues(s: State, p: nat, w: Runner): nat { multiset(Bucket(s, p))[w] }

  /** Outside xs a task is in the ready list of its priority exactly when it is ready, once. */
  ghost predicate QueuedBut(s: State, xs: set<Runner>) {
    && (forall p: nat, w :: Queues(s, p, w) == if w.Of? && w !in xs && T(s, w).state == Ready && T(s, w).prio == p then 1 else 0)
    && (forall w :: T(s, w).prio <= PRIO_MAX)
  }

  ghost predicate Placed(s: State) { Owned(s) && Held(s) && Locked(s) && Rested(s) && Idles(s) }

  ghost predicate Safe(s: State) { Placed(s) && QueuedBut(s, {}) }

  /** Before the first dispatch: every core is booting, every task is at rest. */
  ghost predicate Initial(s: State) {
    && (forall c: nat :: C(s, c) == Core(None, 0, false) && CpuOf(s, c).Executing? && CpuOf(s, c).who.None?)
    && (forall w :: T(s, w).runningCore.None? && T(s, w).stackPtr == LeftAt(s, w) && T(s, w).state != Running)
    && QueuedBut(s, {})
  }

  lemma InitialIsSafe(s: State)
    requires Initial(s)
    ensures Safe(s)
  {
  }

  // ---------- what the invariant says ----------

  /** No task executes on two cores. */
  lemma OneCoreEach(s: State, c: nat, d: nat)
    requires Safe(s) && CpuOf(s, c).Executing? && CpuOf(s, d).Executing?
    requires CpuOf(s, c).who.Some? && CpuOf(s, c).who == CpuOf(s, d).who
    ensures c == d
  {
    assert Owns(s, c) && Owns(s, d);
  }

  lemma {:induction false} FirstEligibleIs(s: State, c: nat, ws: seq<Runner>)
    ensures FirstEligible(s, c, ws).None? ==> forall w :: w in ws ==> !Eligible(s, c, w)
    ensures FirstEligible(s, c, ws).Some? ==>
      exists i :: 0 <= i < |ws| && FirstEligible(s, c, ws) == Some(ws[i]) && Eligible(s, c, ws[i])
                  && forall j :: 0 <= j < i ==> !Eligible(s, c, ws[j])
    decreases |ws|
  {
    if ws != [] && !Eligible(s, c, ws[0]) {
      FirstEligibleIs(s, c, ws[1..]);
      if FirstEligible(s, c, ws).Some? {
        var i :| 0 <= i < |ws[1..]| && FirstEligible(s, c, ws[1..]) == Some(ws[1..][i]) && Eligible(s, c, ws[1..][i])
                  && forall j :: 0 <= j < i ==> !Eligible(s, c, ws[1..][j]);
        assert ws[i + 1] == ws[1..][i];
        forall j | 0 <= j < i + 1 ensures !Eligible(s, c, ws[j]) { if j > 0 { assert ws[j] == ws[1..][j - 1]; } }
      }
    }
  }

  /** Task w waits in ready list p and may run on core c. */
  predicate Candidate(s: State, c: nat, p: nat, w: Runner) { w in Bucket(s, p) && Eligible(s, c, w) }

  lemma {:induction false} PickIsBest(s: State, c: nat, p: nat)
    ensures Pick(s, c, p).None? ==> forall q: nat, w :: q <= p ==> !Candidate(s, c, q, w)
    ensures Pick(s, c, p).Some? ==>
      exists q: nat :: q <= p && FirstEligible(s, c, Bucket(s, q)) == Pick(s, c, p) && forall r: nat, w :: q < r <= p ==> !Candidate(s, c, r, w)
    decreases p
  {
    FirstEligibleIs(s, c, Bucket(s, p));
    if FirstEligible(s, c, Bucket(s, p)).None? && p > 0 {
      PickIsBest(s, c, p - 1);
      if Pick(s, c, p).Some? {
        var q: nat :| q <= p - 1 && FirstEligible(s, c, Bucket(s, q)) == Pick(s, c, p - 1) && forall r: nat, w :: q < r <= p - 1 ==> !Candidate(s, c, r, w);
        forall r: nat, w | q < r <= p ensures !Candidate(s, c, r, w) { if r == p { assert w in Bucket(s, p) ==> !Eligible(s, c, w); } }
      }
    } else if FirstEligible(s, c, Bucket(s, p)).None? {
      forall q: nat, w | q <= p ensures !Candidate(s, c, q, w) {}
    }
  }

  /** A selected task is free, ready and of some list; the highest list and the earliest place in it among
      those this core may take. */
  lemma PickedIsReady(s: State, c: nat)
    requires QueuedBut(s, {}) && Pick(s, c, PRIO_MAX).Some?
    ensures var w := Pick(s, c, PRIO_MAX).value; w.Of? && T(s, w).state == Ready && Eligible(s, c, w)
    ensures var w := Pick(s, c, PRIO_MAX).value; FirstEligible(s, c, Bucket(s, T(s, w).prio)) == Some(w)
    ensures var w := Pick(s, c, PRIO_MAX).value; forall x :: T(s, x).state == Ready && x.Of? && Eligible(s, c, x) ==> T(s, x).prio <= T(s, w).prio
  {
    var w := Pick(s, c, PRIO_MAX).value;
    PickIsBest(s, c, PRIO_MAX);
    var q: nat :| q <= PRIO_MAX && FirstEligible(s, c, Bucket(s, q)) == Some(w) && forall r: nat, x :: q < r <= PRIO_MAX ==> !Candidate(s, c, r, x);
    FirstEligibleIs(s, c, Bucket(s, q));
    assert w in Bucket(s, q) && Queues(s, q, w) > 0;
    hide Eligible, FirstEligible, Pick;
    forall x | T(s, x).state == Ready && x.Of? && Eligible(s, c, x) ensures T(s, x).prio <= q {
      assert Queues(s, T(s, x).prio, x) == 1;
      assert x in Bucket(s, T(s, x).prio);
      assert Candidate(s, c, T(s, x).prio, x);
    }
  }

  /** A core idles only when no ready task may run on it. */
  lemma IdleMeansNothingToDo(s: State, c: nat, x: Runner)
    requires QueuedBut(s, {}) && Pick(s, c, PRIO_MAX).None? && x.Of? && T(s, x).state == Ready
    ensures !Eligible(s, c, x)
  {
    PickIsBest(s, c, PRIO_MAX);
    assert Queues(s, T(s, x).prio, x) == 1;
    assert x in Bucket(s, T(s, x).prio);
    assert !Candidate(s, c, T(s, x).prio, x);
  }

  lemma ChosenIsAtRest(s: State, c: nat)
    requires Safe(s) && CpuOf(s, c).Switching?
    ensures AtRest(s, Chosen(s, c))
    ensures !HandsBack(s, c) ==> T(s, Chosen(s, c)).runningCore.None?
    ensures HandsBack(s, c) ==> T(s, Chosen(s, c)).runningCore == Some(c)
  {
    if HandsBack(s, c) {
      assert LockHolds(s, c);
    } else if Pick(s, c, PRIO_MAX).Some? {
      PickedIsReady(s, c);
    } else {
      IdleIsFree(s, c);
    }
  }

  lemma IdleIsFree(s: State, c: nat)
    requires Safe(s) && CpuOf(s, c).Switching? && !HandsBack(s, c)
    ensures T(s, IdleOf(c)).runningCore.None?
  {
    var rc := T(s, IdleOf(c)).runningCore;
    assert rc.Some? ==> HeldBy(s, IdleOf(c), rc.value);
    assert LockHolds(s, c);
  }

  /** Every dispatch resumes a task that executes nowhere, from where it last stopped. */
  lemma DispatchResumes(s: State, c: nat)
    requires Safe(s) && CpuOf(s, c).Switching?
    ensures var w := Chosen(s, c);
            CpuOf(Select(s, c), c) == Executing(Some(w), LeftAt(s, w)) && forall d: nat :: CpuOf(s, d).Executing? ==> CpuOf(s, d).who != Some(w)
  {
    hide HandsBack, Pick, Without;
    var w := Chosen(s, c);
    ChosenIsAtRest(s, c);
    hide Chosen;
    forall d: nat | CpuOf(s, d).Executing? ensures CpuOf(s, d).who != Some(w) {
      assert Owns(s, d);
    }
  }

  // ---------- steps that move no task between cores ----------

  /** Only run states, priorities, affinities and lists change, and no state of a lock holder. */
  ghost predicate Paper(s: State, s': State) {
    && s'.core == s.core && s'.cpu == s.cpu
    && (forall w :: T(s', w).runningCore == T(s, w).runningCore)
    && (forall w :: T(s', w).stackPtr == T(s, w).stackPtr && LeftAt(s', w) == LeftAt(s, w))
    && (forall c: nat :: C(s, c).lockCount != 0 && C(s, c).current.Some? ==> T(s', C(s, c).current.value).state == T(s, C(s, c).current.value).state)
  }

  lemma PaperKeeps(s: State, s': State)
    requires Placed(s) && Paper(s, s')
    ensures Placed(s')
  {
    forall c: nat ensures LockHolds(s', c) && Owns(s', c) { assert LockHolds(s, c) && Owns(s, c); }
    forall w | T(s', w).runningCore.Some? ensures HeldBy(s', w, T(s', w).runningCore.value) { assert HeldBy(s, w, T(s, w).runningCore.value); }
    forall w | AtRest(s', w) ensures T(s', w).stackPtr == LeftAt(s', w) { assert AtRest(s, w); }
  }

  /** One task's block is rewritten, its marks stay. */
  lemma RewriteIsPaper(s: State, s': State, w: Runner, r: Tcb)
    requires s'.tcb == s.tcb[w := r] && s'.core == s.core && s'.cpu == s.cpu && s'.left == s.left
    requires r.runningCore == T(s, w).runningCore && r.stackPtr == T(s, w).stackPtr
    requires r.state == T(s, w).state || forall c: nat :: C(s, c).lockCount != 0 ==> C(s, c).current != Some(w)
    ensures Paper(s, s')
  {
  }

  lemma RunsUnderLock(s: State, w: Runner)
    requires Locked(s) && T(s, w).state != Running
    ensures forall c: nat :: C(s, c).lockCount != 0 ==> C(s, c).current != Some(w)
  {
    forall c: nat | C(s, c).lockCount != 0 ensures C(s, c).current != Some(w) { assert LockHolds(s, c); }
  }

  lemma LeaveCounts(s: State, w: Runner, q: nat, x: Runner)
    requires Queues(s, T(s, w).prio, w) == 1
    ensures Queues(LeaveReady(s, w), q, x) == if q == T(s, w).prio && x == w then 0 else Queues(s, q, x)
  {
    WithoutCounts(Bucket(s, T(s, w).prio), w);
    hide Without;
  }

  lemma ReadyCounts(s: State, w: Runner, q: nat, x: Runner)
    ensures Queues(MakeReady(s, w), q, x) == Queues(s, q, x) + if q == T(s, w).prio && x == w then 1 else 0
  {
  }

  lemma LeaveQueues(s: State, w: Runner)
    requires QueuedBut(s, {}) && w.Of? && T(s, w).state == Ready
    ensures QueuedBut(LeaveReady(s, w), {w})
  {
    var s' := LeaveReady(s, w);
    assert s'.tcb == s.tcb && Queues(s, T(s, w).prio, w) == 1;
    hide LeaveReady, Queues;
    forall q: nat, x ensures Queues(s', q, x) == if x.Of? && x !in {w} && T(s', x).state == Ready && T(s', x).prio == q then 1 else 0 {
      LeaveCounts(s, w, q, x);
      assert T(s', x) == T(s, x);
    }
    forall x ensures T(s', x).prio <= PRIO_MAX { assert T(s', x) == T(s, x); }
  }

  lemma ReadyQueues(s: State, w: Runner)
    requires QueuedBut(s, {w}) && w.Of?
    ensures QueuedBut(MakeReady(s, w), {})
  {
    var s' := MakeReady(s, w);
    assert forall x :: T(s', x) == if x == w then T(s, w).(state := Ready) else T(s, x);
    hide MakeReady, Queues;
    forall q: nat, x ensures Queues(s', q, x) == if x.Of? && x !in {} && T(s', x).state == Ready && T(s', x).prio == q then 1 else 0 {
      ReadyCounts(s, w, q, x);
    }
    forall x ensures T(s', x).prio <= PRIO_MAX { assert T(s, x).prio <= PRIO_MAX; }
  }

  /** The lists stay, and so does every state and priority outside xs; those in xs are in no list. */
  lemma SameQueues(s: State, s': State, xs: set<Runner>, ys: set<Runner>)
    requires QueuedBut(s, xs) && s'.ready == s.ready
    requires forall x :: x !in xs ==> T(s', x).state == T(s, x).state && T(s', x).prio == T(s, x).prio
    requires forall x :: T(s', x).prio <= PRIO_MAX
    requires ys <= xs && forall x :: x in xs - ys && x.Of? ==> T(s', x).state != Ready
    ensures QueuedBut(s', ys)
  {
    forall q: nat, x ensures Queues(s', q, x) == if x.Of? && x !in ys && T(s', x).state == Ready && T(s', x).prio == q then 1 else 0 {
      assert Queues(s, q, x) == if x.Of? && x !in xs && T(s, x).state == Ready && T(s, x).prio == q then 1 else 0;
      assert Bucket(s', q) == Bucket(s, q);
    }
  }

  /** A task that is not ready may be set aside or not. */
  lemma SetAside(s: State, w: Runner)
    requires QueuedBut(s, {}) && (w.Of? ==> T(s, w).state != Ready)
    ensures QueuedBut(s, {w})
  {
    forall q: nat, x ensures Queues(s, q, x) == if x.Of? && x !in {w} && T(s, x).state == Ready && T(s, x).prio == q then 1 else 0 {
      assert Queues(s, q, x) == if x.Of? && x !in {} && T(s, x).state == Ready && T(s, x).prio == q then 1 else 0;
    }
  }

  lemma UnlinkQueues(s: State, w: Runner)
    requires QueuedBut(s, {}) && w.Of?
    ensures QueuedBut(Unlink(s, w), {w})
    ensures Unlink(s, w) == s.(ready := Unlink(s, w).ready)
  {
    hide QueuedBut;
    if T(s, w).state == Ready { LeaveQueues(s, w); } else { SetAside(s, w); }
  }

  // ---------- every step keeps the invariant ----------

  /** One task holds a core at most once over. */
  lemma HeldAlone(s: State, w: Runner, c: nat)
    requires Placed(s) && C(s, c).current == Some(w) && T(s, w).runningCore == Some(c) && C(s, c).lockCount == 0
    ensures forall d: nat :: C(s, d).lockCount != 0 ==> C(s, d).current != Some(w)
  {
    forall d: nat | C(s, d).lockCount != 0 ensures C(s, d).current != Some(w) { assert LockHolds(s, d); }
  }

  lemma CallerOwns(s: State, c: nat)
    requires Placed(s) && Calls(s, c)
    ensures C(s, c).current == CpuOf(s, c).who && T(s, C(s, c).current.value).runningCore == Some(c)
  {
    assert Owns(s, c);
  }

  /** Who may be paused or deleted holds no scheduler. */
  lemma AllowedHoldsNothing(s: State, c: nat, w: Runner)
    requires Placed(s) && Calls(s, c) && !Refused(s, c, w)
    ensures forall d: nat :: C(s, d).lockCount != 0 ==> C(s, d).current != Some(w)
  {
    CallerOwns(s, c);
    if C(s, c).current == Some(w) {
      HeldAlone(s, w, c);
    } else {
      forall d: nat | C(s, d).lockCount != 0 ensures C(s, d).current != Some(w) { assert d in s.core; }
    }
  }

  lemma WorkSafe(s: State, c: nat, sp: nat)
    requires Safe(s) && CpuOf(s, c).Executing?
    ensures Safe(Apply(s, Work(c, sp)))
  {
    var s' := Apply(s, Work(c, sp));
    forall d: nat ensures LockHolds(s', d) && Owns(s', d) { assert LockHolds(s, d) && Owns(s, d); }
    forall w | T(s', w).runningCore.Some? ensures HeldBy(s', w, T(s', w).runningCore.value) { assert HeldBy(s, w, T(s, w).runningCore.value); }
    forall w | AtRest(s', w) ensures T(s', w).stackPtr == LeftAt(s', w) { assert AtRest(s, w); }
    SameQueues(s, s', {}, {});
  }

  /** The lock count of a calling core changes, or nothing but its switch flag. */
  lemma LockChangeSafe(s: State, c: nat, n: nat, pending: bool)
    requires Safe(s) && Calls(s, c)
    ensures Safe(s.(core := s.core[c := C(s, c).(lockCount := n, switchPending := pending)]))
  {
    var s' := s.(core := s.core[c := C(s, c).(lockCount := n, switchPending := pending)]);
    CallerOwns(s, c);
    forall d: nat ensures LockHolds(s', d) && Owns(s', d) { assert LockHolds(s, d) && Owns(s, d); }
    forall w | T(s', w).runningCore.Some? ensures HeldBy(s', w, T(s', w).runningCore.value) { assert HeldBy(s, w, T(s, w).runningCore.value); }
    forall w | AtRest(s', w) ensures T(s', w).stackPtr == LeftAt(s', w) { assert AtRest(s, w); }
    SameQueues(s, s', {}, {});
  }

  /** A running task leaves the running state on its own core. */
  lemma BlockSafe(s: State, c: nat)
    requires Safe(s) && Enabled(s, Block(c))
    ensures Safe(Apply(s, Block(c)))
  {
    var w := CpuOf(s, c).who.value;
    var s' := Apply(s, Block(c));
    CallerOwns(s, c);
    HeldAlone(s, w, c);
    RewriteIsPaper(s, s', w, T(s, w).(state := Blocked));
    SetAside(s, w);
    SameQueues(s, s', {w}, {});
    hide Placed, Paper, QueuedBut;
    PaperKeeps(s, s');
  }

  lemma MakeReadyIs(s: State, w: Runner)
    ensures MakeReady(s, w).tcb == s.tcb[w := T(s, w).(state := Ready)]
    ensures MakeReady(s, w) == s.(tcb := MakeReady(s, w).tcb, ready := MakeReady(s, w).ready)
  {
  }

  lemma WakeSafe(s: State, w: Runner)
    requires Safe(s) && Enabled(s, Wake(w))
    ensures Safe(MakeReady(s, w))
  {
    RunsUnderLock(s, w);
    MakeReadyIs(s, w);
    RewriteIsPaper(s, MakeReady(s, w), w, T(s, w).(state := Ready));
    hide Placed, Paper, QueuedBut, MakeReady;
    PaperKeeps(s, MakeReady(s, w));
    SetAside(s, w);
    ReadyQueues(s, w);
  }

  lemma PauseSafe(s: State, c: nat, w: Runner)
    requires Safe(s) && Enabled(s, Pause(c, w))
    ensures Safe(Apply(s, Pause(c, w)))
  {
    var s1, s' := Unlink(s, w), Apply(s, Pause(c, w));
    AllowedHoldsNothing(s, c, w);
    UnlinkQueues(s, w);
    assert s'.ready == s1.ready;
    assert forall x :: x != w ==> T(s', x) == T(s1, x);
    assert T(s', w).state == Suspended && T(s1, w) == T(s, w) && T(s', w).prio == T(s, w).prio;
    hide Unlink;
    RewriteIsPaper(s, s', w, T(s, w).(state := Suspended));
    SameQueues(s1, s', {w}, {});
    hide Placed, Paper, QueuedBut;
    PaperKeeps(s, s');
  }

  lemma StartSafe(s: State, w: Runner)
    requires Safe(s) && Enabled(s, Start(w))
    ensures Safe(Apply(s, Start(w)))
  {
    var s1, s' := Unlink(s, w), Apply(s, Start(w));
    UnlinkQueues(s, w);
    hide Unlink;
    assert T(s1, w) == T(s, w);
    if Found(s, w) {
      if T(s, w).state != Running { RunsUnderLock(s, w); }
      RewriteIsPaper(s, s', w, T(s, w).(state := Running));
      SameQueues(s1, s', {w}, {});
      hide Placed, Paper, QueuedBut;
      PaperKeeps(s, s');
    } else {
      forall d: nat | C(s, d).lockCount != 0 ensures C(s, d).current != Some(w) { assert d in s.core; }
      MakeReadyIs(s1, w);
      hide Placed, QueuedBut, MakeReady;
      RewriteIsPaper(s, s', w, T(s, w).(state := Ready));
      hide Paper;
      PaperKeeps(s, s');
      ReadyQueues(s1, w);
    }
  }

  lemma PinSafe(s: State, w: Runner, affinity: set<nat>)
    requires Safe(s) && Enabled(s, Pin(w, affinity))
    ensures Safe(Apply(s, Pin(w, affinity)))
  {
    var s' := Apply(s, Pin(w, affinity));
    RewriteIsPaper(s, s', w, T(s, w).(affinity := affinity));
    SameQueues(s, s', {}, {});
    hide Placed, Paper, QueuedBut;
    PaperKeeps(s, s');
  }

  lemma ReprioritizeSafe(s: State, w: Runner, p: nat)
    requires Safe(s) && Enabled(s, Reprioritize(w, p))
    ensures Safe(Apply(s, Reprioritize(w, p)))
  {
    var s' := Reprioritized(s, w, p);
    var r := T(s, w).(prio := p);
    if T(s, w).state == Ready {
      var s1 := LeaveReady(s, w);
      var s2 := SetTcb(s1, w, r);
      LeaveQueues(s, w);
      SameQueues(s1, s2, {w}, {w});
      MakeReadyIs(s2, w);
      assert s'.tcb == s.tcb[w := r];
      hide MakeReady, LeaveReady, QueuedBut;
      ReadyQueues(s2, w);
    } else {
      SetAside(s, w);
      SameQueues(s, s', {w}, {});
    }
    hide QueuedBut;
    RewriteIsPaper(s, s', w, r);
    PaperKeeps(s, s');
  }

  lemma CreateSafe(s: State, w: Runner, p: nat, affinity: set<nat>, sp: nat)
    requires Safe(s) && Enabled(s, Create(w, p, affinity, sp))
    ensures Safe(Apply(s, Create(w, p, affinity, sp)))
  {
    var s' := Apply(s, Create(w, p, affinity, sp));
    forall d: nat ensures LockHolds(s', d) && Owns(s', d) { assert LockHolds(s, d) && Owns(s, d); }
    forall x | T(s', x).runningCore.Some? ensures HeldBy(s', x, T(s', x).runningCore.value) { assert HeldBy(s, x, T(s, x).runningCore.value); }
    forall x | AtRest(s', x) ensures T(s', x).stackPtr == LeftAt(s', x) { assert AtRest(s, x); }
    SetAside(s, w);
    SameQueues(s, s', {w}, {});
  }

  /** A task that holds no scheduler is erased; the core it executed on, if any, runs on without it. */
  lemma ErasedPlaced(s: State, s': State, w: Runner)
    requires Placed(s) && forall d: nat :: C(s, d).lockCount != 0 ==> C(s, d).current != Some(w)
    requires T(s', w) == CLEARED && LeftAt(s', w) == 0
    requires forall x :: x != w ==> T(s', x) == T(s, x) && LeftAt(s', x) == LeftAt(s, x)
    requires forall d: nat :: C(s', d) == if Runs(s, d, w) then C(s, d).(current := None) else C(s, d)
    requires forall d: nat :: CpuOf(s', d) == if Runs(s, d, w) then CpuOf(s, d).(who := None) else CpuOf(s, d)
    ensures Placed(s')
  {
    forall d: nat ensures LockHolds(s', d) && Owns(s', d) { assert LockHolds(s, d) && Owns(s, d); }
    forall x | T(s', x).runningCore.Some? ensures HeldBy(s', x, T(s', x).runningCore.value) { assert HeldBy(s, x, T(s, x).runningCore.value); }
    forall x | AtRest(s', x) ensures T(s', x).stackPtr == LeftAt(s', x) { if x != w { assert AtRest(s, x); } }
  }

  predicate Runs(s: State, c: nat, w: Runner) { CpuOf(s, c).Executing? && CpuOf(s, c).who == Some(w) }

  lemma DeletedIs(s: State, c: nat, w: Runner, x: Runner)
    ensures var s' := Deleted(s, c, w);
            T(s', x) == (if x == w then CLEARED else T(s, x)) && LeftAt(s', x) == if x == w then 0 else LeftAt(s, x)
  {
    hide Unlink;
    assert Deleted(s, c, w).tcb == s.tcb - {w} && Deleted(s, c, w).left == s.left - {w};
    hide Deleted;
  }

  /** The deleted task runs nowhere, but for the caller itself on its own core. */
  lemma DeletedRuns(s: State, c: nat, w: Runner, d: nat)
    requires Safe(s) && Enabled(s, Delete(c, w))
    ensures Runs(s, d, w) <==> d == c && C(s, c).current == Some(w)
  {
    AllowedHoldsNothing(s, c, w);
    CallerOwns(s, c);
    assert Owns(s, d);
    assert C(s, d).current == Some(w) ==> d in s.core;
  }

  lemma DeletePlaced(s: State, c: nat, w: Runner)
    requires Safe(s) && Enabled(s, Delete(c, w))
    ensures Placed(Deleted(s, c, w))
  {
    var s' := Deleted(s, c, w);
    AllowedHoldsNothing(s, c, w);
    CallerOwns(s, c);
    assert Unlink(s, w).tcb == s.tcb && Unlink(s, w).core == s.core && Unlink(s, w).cpu == s.cpu && Unlink(s, w).left == s.left;
    hide Unlink;
    forall x ensures T(s', x) == (if x == w then CLEARED else T(s, x)) && LeftAt(s', x) == if x == w then 0 else LeftAt(s, x) { DeletedIs(s, c, w, x); }
    forall d: nat ensures Runs(s, d, w) <==> d == c && C(s, c).current == Some(w) { DeletedRuns(s, c, w, d); }
    hide Placed, T;
    ErasedPlaced(s, s', w);
  }

  lemma DeleteSafe(s: State, c: nat, w: Runner)
    requires Safe(s) && Enabled(s, Delete(c, w))
    ensures Safe(Apply(s, Delete(c, w)))
  {
    var s1, s' := Unlink(s, w), Deleted(s, c, w);
    DeletePlaced(s, c, w);
    UnlinkQueues(s, w);
    assert s'.ready == s1.ready && T(s', w) == CLEARED;
    assert forall x :: x != w ==> T(s', x) == T(s1, x);
    hide Unlink, Deleted;
    SameQueues(s1, s', {w}, {});
  }

  // ---------- the two halves keep it ----------

  /** Saved and kept by its locked scheduler. */
  lemma SaveLocked(s: State, c: nat)
    requires Safe(s) && CpuOf(s, c).Executing? && C(s, c).lockCount != 0
    ensures Safe(Save(s, c))
  {
    assert LockHolds(s, c) && Owns(s, c);
    var s' := Save(s, c);
    var w := CpuOf(s, c).who.value;
    assert T(s', w) == T(s, w).(stackPtr := CpuOf(s, c).sp) && LeftAt(s', w) == CpuOf(s, c).sp;
    forall d: nat ensures LockHolds(s', d) && Owns(s', d) { assert LockHolds(s, d) && Owns(s, d); }
    forall x | T(s', x).runningCore.Some? ensures HeldBy(s', x, T(s', x).runningCore.value) { assert HeldBy(s, x, T(s, x).runningCore.value); }
    forall x | AtRest(s', x) ensures T(s', x).stackPtr == LeftAt(s', x) { if x != w { assert AtRest(s, x); } }
    SameQueues(s, s', {}, {});
  }

  /** The task of an unlocked core is set free; whatever becomes of its state. */
  lemma FreedPlaced(s: State, s': State, c: nat)
    requires Placed(s) && CpuOf(s, c).Executing? && C(s, c).lockCount == 0
    requires s'.core == s.core && s'.cpu == s.cpu[c := Switching]
    requires forall x :: C(s, c).current != Some(x) ==> T(s', x) == T(s, x) && LeftAt(s', x) == LeftAt(s, x)
    requires C(s, c).current.Some? ==> var w := C(s, c).current.value;
               T(s', w).runningCore.None? && T(s', w).stackPtr == CpuOf(s, c).sp == LeftAt(s', w)
    ensures Placed(s')
  {
    assert Owns(s, c);
    forall d: nat ensures LockHolds(s', d) && Owns(s', d) { assert LockHolds(s, d) && Owns(s, d); }
    forall x | T(s', x).runningCore.Some? ensures HeldBy(s', x, T(s', x).runningCore.value) { assert HeldBy(s, x, T(s, x).runningCore.value); }
    forall x | AtRest(s', x) ensures T(s', x).stackPtr == LeftAt(s', x) {
      if C(s, c).current != Some(x) {
        assert T(s, x).runningCore.Some? ==> HeldBy(s, x, T(s, x).runningCore.value);
        assert AtRest(s, x);
      }
    }
  }

  lemma SaveQueues(s: State, c: nat)
    requires Safe(s) && CpuOf(s, c).Executing? && C(s, c).lockCount == 0 && C(s, c).current.Some?
    ensures QueuedBut(Save(s, c), {})
  {
    var w := C(s, c).current.value;
    var s' := Save(s, c);
    assert Owns(s, c);
    if T(s, w).state == Running && w.Of? {
      var s2 := s.(cpu := s'.cpu, left := s'.left, tcb := s.tcb[w := T(s, w).(stackPtr := CpuOf(s, c).sp, runningCore := None)]);
      assert s' == MakeReady(s2, w) by {
        assert s.tcb[w := T(s, w).(stackPtr := CpuOf(s, c).sp)][w := T(s2, w)] == s2.tcb;
      }
      SetAside(s, w);
      SameQueues(s, s2, {w}, {w});
      hide Save, MakeReady;
      ReadyQueues(s2, w);
    } else {
      assert T(s, w).runningCore == Some(c);
      assert w.IdleOf? ==> w == IdleOf(c);
      var xs := if w.Of? then {} else {w};
      if w.IdleOf? { SetAside(s, w); }
      assert s'.ready == s.ready;
      SameQueues(s, s', xs, {});
    }
  }

  lemma SaveSafe(s: State, c: nat)
    requires Safe(s) && CpuOf(s, c).Executing?
    ensures Safe(Save(s, c))
  {
    if C(s, c).lockCount != 0 {
      SaveLocked(s, c);
    } else {
      var s' := Save(s, c);
      assert Owns(s, c);
      if C(s, c).current.Some? {
        SaveQueues(s, c);
        var w := C(s, c).current.value;
        assert T(s, w).runningCore == Some(c) && (w.IdleOf? ==> w == IdleOf(c));
        assert LeftAt(s', w) == CpuOf(s, c).sp;
      } else {
        SameQueues(s, s', {}, {});
      }
      hide Safe, QueuedBut, Placed;
      FreedPlaced(s, s', c);
    }
  }

  lemma HandBackSafe(s: State, c: nat)
    requires Safe(s) && CpuOf(s, c).Switching? && HandsBack(s, c)
    ensures Safe(Select(s, c))
  {
    var s' := Select(s, c);
    assert LockHolds(s, c);
    forall d: nat ensures LockHolds(s', d) && Owns(s', d) { assert LockHolds(s, d) && Owns(s, d); }
    forall x | T(s', x).runningCore.Some? ensures HeldBy(s', x, T(s', x).runningCore.value) { assert HeldBy(s, x, T(s, x).runningCore.value); }
    forall x | AtRest(s', x) ensures T(s', x).stackPtr == LeftAt(s', x) { assert AtRest(s, x); }
    SameQueues(s, s', {}, {});
  }

  /** A task of no core is placed on one that stands between its two halves. */
  lemma TakenPlaced(s: State, s': State, c: nat, w: Runner)
    requires Placed(s) && CpuOf(s, c).Switching? && C(s, c).lockCount == 0 && T(s, w).runningCore.None? && (w.IdleOf? ==> w == IdleOf(c))
    requires s'.tcb == s.tcb[w := T(s, w).(state := Running, runningCore := Some(c))] && s'.left == s.left
    requires s'.core == s.core[c := C(s, c).(current := Some(w))] && s'.cpu == s.cpu[c := Executing(Some(w), T(s, w).stackPtr)]
    ensures Placed(s')
  {
    forall d: nat ensures LockHolds(s', d) && Owns(s', d) { assert LockHolds(s, d) && Owns(s, d); }
    forall x | T(s', x).runningCore.Some? ensures HeldBy(s', x, T(s', x).runningCore.value) {
      if x != w { assert HeldBy(s, x, T(s, x).runningCore.value); }
    }
    forall x | AtRest(s', x) ensures T(s', x).stackPtr == LeftAt(s', x) { assert AtRest(s, x); }
  }

  lemma SelectSafe(s: State, c: nat)
    requires Safe(s) && CpuOf(s, c).Switching?
    ensures Safe(Select(s, c))
  {
    if HandsBack(s, c) {
      HandBackSafe(s, c);
    } else {
      var w, s' := Chosen(s, c), Select(s, c);
      assert LockHolds(s, c);
      ChosenIsAtRest(s, c);
      if Pick(s, c, PRIO_MAX).Some? {
        PickedIsReady(s, c);
        LeaveQueues(s, w);
        var s1 := LeaveReady(s, w);
        assert s'.ready == s1.ready && s1.tcb == s.tcb;
        hide Pick, LeaveReady, Eligible, FirstEligible;
        SameQueues(s1, s', {w}, {});
      } else {
        SetAside(s, w);
        SameQueues(s, s', {w}, {});
      }
      hide Pick, QueuedBut, Chosen, HandsBack;
      TakenPlaced(s, s', c, w);
    }
  }

  lemma StepIsSafe(s: State, a: Step)
    requires Safe(s) && Enabled(s, a)
    ensures Safe(Apply(s, a))
  {
    hide Safe;
    match a
    case Work(c, sp) => WorkSafe(s, c, sp);
    case SaveHalf(c) => SaveSafe(s, c);
    case SelectHalf(c) => SelectSafe(s, c);
    case Lock(c) => LockChangeSafe(s, c, C(s, c).lockCount + 1, C(s, c).switchPending);
    case Unlock(c) => LockChangeSafe(s, c, C(s, c).lockCount - 1, C(s, c).lockCount != 1 && C(s, c).switchPending);
    case Block(c) => BlockSafe(s, c);
    case Wake(w) => WakeSafe(s, w);
    case Pause(c, w) => PauseSafe(s, c, w);
    case Delete(c, w) => DeleteSafe(s, c, w);
    case Create(w, p, affinity, sp) => CreateSafe(s, w, p, affinity, sp);
    case Start(w) => StartSafe(s, w);
    case Pin(w, affinity) => PinSafe(s, w, affinity);
    case Reprioritize(w, p) => ReprioritizeSafe(s, w, p);
  }

  // ---------- runs ----------

  predicate IsRun(s: State, steps: seq<Step>)
    decreases |steps|
  {
    steps == [] || (Enabled(s, steps[0]) && IsRun(Apply(s, steps[0]), steps[1..]))
  }

  function After(s: State, steps: seq<Step>): State
    requires IsRun(s, steps)
    decreases |steps|
  {
    if steps == [] then s else After(Apply(s, steps[0]), steps[1..])
  }

  /** Over all interleavings of all cores: the invariant, and with it one core per task and every dispatch
      from the last save. */
  lemma {:induction false} EveryRunIsSafe(s: State, steps: seq<Step>)
    requires Safe(s) && IsRun(s, steps)
    ensures Safe(After(s, steps))
    decreases |steps|
  {
    if steps != [] {
      StepIsSafe(s, steps[0]);
      EveryRunIsSafe(Apply(s, steps[0]), steps[1..]);
    }
  }

  // ---------- starting a task between the halves ----------

  // ---------- what each step does to the task it is about ----------

  /** In no ready list. */
  ghost predicate Unqueued(s: State, w: Runner) { forall p: nat :: w !in Bucket(s, p) }

  /** Last of the ready tasks of its priority, and in that list alone. */
  ghost predicate QueuedLast(s: State, w: Runner) {
    var b := Bucket(s, T(s, w).prio);
    T(s, w).state == Ready && b != [] && b[|b| - 1] == w && forall p: nat :: p != T(s, w).prio ==> w !in Bucket(s, p)
  }

  ghost predicate OthersSame(s: State, s': State, w: Runner) { forall x :: x != w ==> T(s', x) == T(s, x) }

  lemma NotReadyUnqueued(s: State, w: Runner)
    requires QueuedBut(s, {}) && T(s, w).state != Ready
    ensures Unqueued(s, w)
  {
    forall p: nat ensures w !in Bucket(s, p) { assert Queues(s, p, w) == 0; }
  }

  lemma MadeReadyLast(s: State, w: Runner)
    requires QueuedBut(MakeReady(s, w), {})
    ensures QueuedLast(MakeReady(s, w), w) && OthersSame(s, MakeReady(s, w), w) && T(MakeReady(s, w), w) == T(s, w).(state := Ready)
  {
    var s' := MakeReady(s, w);
    forall p: nat | p != T(s', w).prio ensures w !in Bucket(s', p) { assert Queues(s', p, w) == 0; }
  }

  lemma UnlinkOthers(s: State, w: Runner)
    ensures forall x :: T(Unlink(s, w), x) == T(s, x)
  {
  }

  /** Wake, start, pause, delete and a priority change, on any core: the task ends in the state and list it should,
      behind its equals where it becomes ready, and no other task's block changes. */
  lemma CallOutcome(s: State, a: Step)
    requires Safe(s) && Enabled(s, a)
    ensures var s' := Apply(s, a);
            match a
            case Wake(w) => QueuedLast(s', w) && OthersSame(s, s', w)
            case Start(w) => OthersSame(s, s', w) && (if Found(s, w) then T(s', w).state == Running && Unqueued(s', w) else QueuedLast(s', w))
            case Pause(c, w) => T(s', w).state == Suspended && Unqueued(s', w) && OthersSame(s, s', w)
            case Delete(c, w) => w !in s'.tcb && Unqueued(s', w) && OthersSame(s, s', w)
            case Reprioritize(w, p) =>
              T(s', w).prio == p && T(s', w).state == T(s, w).state && OthersSame(s, s', w) && (T(s, w).state == Ready ==> QueuedLast(s', w))
            case _ => true
  {
    StepIsSafe(s, a);
    var s' := Apply(s, a);
    SafeQueues(s');
    hide Safe, QueuedBut, Unqueued, QueuedLast, LeaveReady, MakeReady;
    match a
    case Wake(w) => MadeReadyLast(s, w);
    case Start(w) =>
      UnlinkOthers(s, w);
      if Found(s, w) { NotReadyUnqueued(s', w); } else { MadeReadyLast(Unlink(s, w), w); }
    case Pause(c, w) => UnlinkOthers(s, w); NotReadyUnqueued(s', w);
    case Delete(c, w) => DeletedOthers(s, c, w); NotReadyUnqueued(s', w);
    case Reprioritize(w, p) => ReprioritizedIs(s, w, p);
    case _ =>
  }

  lemma SafeQueues(s: State)
    requires Safe(s)
    ensures QueuedBut(s, {})
  {
  }

  lemma DeletedOthers(s: State, c: nat, w: Runner)
    ensures var s' := Deleted(s, c, w); w !in s'.tcb && T(s', w) == CLEARED && OthersSame(s, s', w)
  {
    UnlinkOthers(s, w);
    hide Unlink;
    forall x | x != w ensures T(Deleted(s, c, w), x) == T(s, x) { assert T(Unlink(s, w), x) == T(s, x); }
  }

  lemma ReprioritizedIs(s: State, w: Runner, p: nat)
    requires QueuedBut(Reprioritized(s, w, p), {})
    ensures var s' := Reprioritized(s, w, p);
            && T(s', w).prio == p && T(s', w).state == T(s, w).state && OthersSame(s, s', w) && (T(s, w).state == Ready ==> QueuedLast(s', w))
  {
    if T(s, w).state == Ready {
      var s1 := SetTcb(LeaveReady(s, w), w, T(s, w).(prio := p));
      assert forall x :: x != w ==> T(s1, x) == T(s, x);
      hide LeaveReady, MakeReady;
      MadeReadyLast(s1, w);
    }
  }

  /** The first half of PendSV: the task that was executing is put down where it stood, free for any core, behind its
      equals if it could go on; a locked scheduler keeps it and notes the switch. */
  lemma SaveOutcome(s: State, c: nat, w: Runner)
    requires Safe(s) && CpuOf(s, c).Executing? && CpuOf(s, c).who == Some(w) && w.Of?
    ensures var s' := Save(s, c); var locked := T(s, w).state == Running && C(s, c).lockCount != 0;
            && CpuOf(s', c).Switching? && T(s', w).stackPtr == CpuOf(s, c).sp && LeftAt(s', w) == CpuOf(s, c).sp && OthersSame(s, s', w)
            && (locked <==> T(s', w).runningCore.Some?) && (locked ==> C(s', c).switchPending && T(s', w).state == Running)
            && (T(s, w).state == Running && !locked ==> QueuedLast(s', w)) && (T(s, w).state != Running ==> T(s', w).state == T(s, w).state)
  {
    assert Owns(s, c);
    SaveSafe(s, c);
    SafeQueues(Save(s, c));
    hide Safe, QueuedBut, QueuedLast;
    if T(s, w).state == Running && C(s, c).lockCount == 0 {
      var s2 := SaveBefore(s, c, w);
      assert Save(s, c) == MakeReady(s2, w);
      MadeReadyLast(s2, w);
    }
  }

  /** The saved task, about to join its list. */
  function SaveBefore(s: State, c: nat, w: Runner): State
    requires CpuOf(s, c).Executing?
  {
    var s0 := s.(cpu := s.cpu[c := Switching], left := if CpuOf(s, c).who.Some? then s.left[CpuOf(s, c).who.value := CpuOf(s, c).sp] else s.left);
    SetTcb(SetTcb(s0, w, T(s, w).(stackPtr := CpuOf(s, c).sp)), w, T(s, w).(stackPtr := CpuOf(s, c).sp, runningCore := None))
  }

  /** The second half: the chosen task executes on this core and waits in no list; every other task stays as it was. */
  lemma SelectOutcome(s: State, c: nat)
    requires Safe(s) && CpuOf(s, c).Switching?
    ensures var s' := Select(s, c); var w := Chosen(s, c);
            && CpuOf(s', c).Executing? && CpuOf(s', c).who == Some(w) && C(s', c).current == Some(w) && T(s', w).state == Running
            && T(s', w).runningCore == Some(c) && Unqueued(s', w) && OthersSame(s, s', w)
  {
    StepIsSafe(s, SelectHalf(c));
    assert LockHolds(s, c);
    SafeQueues(Select(s, c));
    hide Safe, QueuedBut, Unqueued, Pick, LeaveReady;
    LeaveKeepsTasks(s, Chosen(s, c));
    SelectedTask(s, c);
    NotReadyUnqueued(Select(s, c), Chosen(s, c));
  }

  lemma LeaveKeepsTasks(s: State, w: Runner)
    ensures LeaveReady(s, w).tcb == s.tcb && LeaveReady(s, w).core == s.core && LeaveReady(s, w).cpu == s.cpu
  {
  }

  lemma SelectedTask(s: State, c: nat)
    requires LockHolds(s, c)
    ensures var s' := Select(s, c); var w := Chosen(s, c);
            && CpuOf(s', c).Executing? && CpuOf(s', c).who == Some(w) && C(s', c).current == Some(w) && T(s', w).state == Running
            && T(s', w).runningCore == Some(c) && OthersSame(s, s', w)
  {
    var w := Chosen(s, c);
    var s0 := s.(cpu := s.cpu[c := Executing(Some(w), T(s, w).stackPtr)]);
    LeaveKeepsTasks(s0, w);
    hide Chosen, Pick, LeaveReady;
    if HandsBack(s, c) { HandedBack(s, c); assert OthersSame(s, Select(s, c), w); }
  }

  lemma HandedBack(s: State, c: nat)
    requires HandsBack(s, c)
    ensures C(s, c).current == Some(Chosen(s, c)) && T(s, Chosen(s, c)).state == Running
  {
    hide Pick;
  }

  /** A running task is on some core. */
  ghost predicate NoneStranded(s: State) { forall w :: T(s, w).state == Running ==> T(s, w).runningCore.Some? }

  /** Current somewhere, though its core has set it free already. */
  predicate Stale(s: State, w: Runner) { Found(s, w) && T(s, w).runningCore.None? }

  /** Starting a task strands it exactly when it is started in that gap: it is marked running, taken off
      its ready list, and runs nowhere. */
  lemma StartStrandsTheStale(s: State, w: Runner)
    requires Safe(s) && NoneStranded(s) && Enabled(s, Start(w))
    ensures NoneStranded(Apply(s, Start(w))) <==> !Stale(s, w)
  {
    var s' := Apply(s, Start(w));
    assert forall x :: x != w ==> T(s', x) == T(s, x);
    assert T(s', w) == T(s, w).(state := if Found(s, w) then Running else Ready);
  }

  /** No other step strands anyone. */
  lemma OthersStrandNobody(s: State, a: Step)
    requires Safe(s) && NoneStranded(s) && Enabled(s, a) && !a.Start?
    ensures NoneStranded(Apply(s, a))
  {
    var s' := Apply(s, a);
    hide Safe, Unlink, MakeReady, LeaveReady, Save, Select;
    match a
    case SaveHalf(c) => SaveStrandsNobody(s, c);
    case SelectHalf(c) => SelectStrandsNobody(s, c);
    case Work(_, _) => SameStrandsNobody(s, s');
    case Lock(_) => SameStrandsNobody(s, s');
    case Unlock(_) => SameStrandsNobody(s, s');
    case Block(c) => SetTcbStrandsNobody(s, CpuOf(s, c).who.value, T(s, CpuOf(s, c).who.value).(state := Blocked));
    case Wake(w) => WakeStrandsNobody(s, w);
    case Pause(_, w) => PauseStrandsNobody(s, w);
    case Delete(c, w) => DeleteStrandsNobody(s, c, w);
    case Create(w, p, affinity, sp) =>
      SetTcbStrandsNobody(s, w, Tcb(Suspended, p, affinity, None, sp));
      SameStrandsNobody(SetTcb(s, w, Tcb(Suspended, p, affinity, None, sp)), s');
    case Pin(w, affinity) => SetTcbStrandsNobody(s, w, T(s, w).(affinity := affinity));
    case Reprioritize(w, p) => ReprioritizeStrandsNobody(s, w, p);
  }

  lemma SameStrandsNobody(s: State, s': State)
    requires NoneStranded(s) && s'.tcb == s.tcb
    ensures NoneStranded(s')
  {
    forall x | T(s', x).state == Running ensures T(s', x).runningCore.Some? { assert T(s', x) == T(s, x); }
  }

  lemma SetTcbStrandsNobody(s: State, w: Runner, r: Tcb)
    requires NoneStranded(s) && (r.state == Running ==> r.runningCore == T(s, w).runningCore && T(s, w).state == Running)
    ensures NoneStranded(SetTcb(s, w, r))
  {
    var s' := SetTcb(s, w, r);
    assert forall x :: x != w ==> T(s', x) == T(s, x);
  }

  lemma WakeStrandsNobody(s: State, w: Runner)
    requires NoneStranded(s)
    ensures NoneStranded(MakeReady(s, w))
  {
    SetTcbStrandsNobody(s, w, T(s, w).(state := Ready));
    SameStrandsNobody(SetTcb(s, w, T(s, w).(state := Ready)), MakeReady(s, w));
  }

  lemma PauseStrandsNobody(s: State, w: Runner)
    requires NoneStranded(s)
    ensures NoneStranded(SetTcb(Unlink(s, w), w, T(s, w).(state := Suspended)))
  {
    SameStrandsNobody(s, Unlink(s, w));
    SetTcbStrandsNobody(Unlink(s, w), w, T(s, w).(state := Suspended));
  }

  lemma DeleteStrandsNobody(s: State, c: nat, w: Runner)
    requires NoneStranded(s)
    ensures NoneStranded(Deleted(s, c, w))
  {
    var s' := Deleted(s, c, w);
    assert T(s', w) == CLEARED && forall x :: x != w ==> T(s', x) == T(s, x);
    NotRunningNow(s, s', w);
  }

  lemma ReprioritizeStrandsNobody(s: State, w: Runner, p: nat)
    requires NoneStranded(s)
    ensures NoneStranded(Reprioritized(s, w, p))
  {
    var r := T(s, w).(prio := p);
    if T(s, w).state == Ready {
      SameStrandsNobody(s, LeaveReady(s, w));
      SetTcbStrandsNobody(LeaveReady(s, w), w, r);
      WakeStrandsNobody(SetTcb(LeaveReady(s, w), w, r), w);
    } else {
      SetTcbStrandsNobody(s, w, r);
    }
  }

  lemma NotRunningNow(s: State, s': State, w: Runner)
    requires NoneStranded(s) && T(s', w).state != Running
    requires forall x :: x != w ==> T(s', x) == T(s, x)
    ensures NoneStranded(s')
  {
  }

  lemma SaveStrandsNobody(s: State, c: nat)
    requires Safe(s) && NoneStranded(s) && CpuOf(s, c).Executing?
    ensures NoneStranded(Save(s, c))
  {
    assert LockHolds(s, c);
    if C(s, c).current.Some? {
      var w := C(s, c).current.value;
      var s' := Save(s, c);
      assert forall x :: x != w ==> T(s', x) == T(s, x);
      if C(s, c).lockCount == 0 { NotRunningNow(s, s', w); }
    } else {
      SameStrandsNobody(s, Save(s, c));
    }
  }

  lemma SelectStrandsNobody(s: State, c: nat)
    requires NoneStranded(s) && CpuOf(s, c).Switching?
    ensures NoneStranded(Select(s, c))
  {
    hide Pick, Without;
    var w, s' := Chosen(s, c), Select(s, c);
    assert forall x :: x != w ==> T(s', x) == T(s, x);
  }

  const NOTHING: State := State(map[], map[], map[], map[], map[])

  /** Create, start and dispatch one task, save it, and start it once more before its core selects. */
  const STRANDING: seq<Step> :=
    [Create(Of(1), PRIO_MAX, {}, 0), Start(Of(1)), SaveHalf(0), SelectHalf(0), SaveHalf(0), Start(Of(1))]

  /** One step in front of a run. */
  lemma RunFrom(s: State, steps: seq<Step>)
    requires steps != [] ==> Enabled(s, steps[0]) && IsRun(Apply(s, steps[0]), steps[1..])
    ensures IsRun(s, steps)
    ensures After(s, steps) == if steps == [] then s else After(Apply(s, steps[0]), steps[1..])
  {
  }

  /** It can happen: the run ends with the task marked running on no core and in no ready list, and the
      only core picks idle. */
  lemma StartCanStrand()
    ensures Initial(NOTHING) && IsRun(NOTHING, STRANDING)
    ensures var s := After(NOTHING, STRANDING);
            T(s, Of(1)).state == Running && T(s, Of(1)).runningCore.None? && Bucket(s, PRIO_MAX) == [] && Chosen(s, 0) == IdleOf(0)
  {
    InitialIsSafe(NOTHING);
    StrandingIsRun();
    hide Enabled, Apply, IsRun, After, Pick, Safe;
    EveryRunIsSafe(NOTHING, STRANDING);
    OnlyOneNotReady(STRANDED);
  }

  lemma StrandingIsRun()
    ensures IsRun(NOTHING, STRANDING) && After(NOTHING, STRANDING) == STRANDED
  {
    hide Enabled, Apply, IsRun, After, Scene;
    SceneCreated();
    SceneStarted();
    SceneBootSaved();
    SceneSelected();
    ScenePreempted();
    SceneStranded();
    RunFrom(STRANDED, []);
    RunFrom(PREEMPTED, STRANDING[5..]);
    RunFrom(DISPATCHED, STRANDING[4..]);
    RunFrom(BOOTED, STRANDING[3..]);
    RunFrom(QUEUED, STRANDING[2..]);
    RunFrom(CREATED, STRANDING[1..]);
    RunFrom(NOTHING, STRANDING);
  }

  /** The states of that run. */
  function Scene(state: RunState, on: Option<nat>, ready: map<nat, seq<Runner>>, core: map<nat, Core>, cpu: map<nat, Cpu>): State {
    State(map[Of(1) := Tcb(state, PRIO_MAX, {}, on, 0)], ready, core, cpu, map[Of(1) := 0])
  }

  const ONE: Core := Core(Some(Of(1)), 0, false)
  const CREATED: State := Scene(Suspended, None, map[], map[], map[])
  const QUEUED: State := Scene(Ready, None, map[PRIO_MAX := [Of(1)]], map[], map[])
  const BOOTED: State := Scene(Ready, None, map[PRIO_MAX := [Of(1)]], map[], map[0 := Switching])
  const DISPATCHED: State := Scene(Running, Some(0), map[PRIO_MAX := []], map[0 := ONE], map[0 := Executing(Some(Of(1)), 0)])
  const PREEMPTED: State := Scene(Ready, None, map[PRIO_MAX := [Of(1)]], map[0 := ONE], map[0 := Switching])
  const STRANDED: State := Scene(Running, None, map[PRIO_MAX := []], map[0 := ONE], map[0 := Switching])

  lemma SceneCreated()
    ensures Enabled(NOTHING, STRANDING[0]) && Apply(NOTHING, STRANDING[0]) == CREATED
  {
  }

  lemma SceneStarted()
    ensures Enabled(CREATED, STRANDING[1]) && Apply(CREATED, STRANDING[1]) == QUEUED
  {
    assert T(CREATED, Of(1)).state == Suspended && !Found(CREATED, Of(1));
    assert Bucket(CREATED, PRIO_MAX) + [Of(1)] == [Of(1)];
    assert MakeReady(CREATED, Of(1)) == QUEUED;
  }

  lemma SceneBootSaved()
    ensures Enabled(QUEUED, STRANDING[2]) && Apply(QUEUED, STRANDING[2]) == BOOTED
  {
  }

  lemma SceneSelected()
    ensures Enabled(BOOTED, STRANDING[3]) && Apply(BOOTED, STRANDING[3]) == DISPATCHED
  {
    assert Bucket(BOOTED, PRIO_MAX) == [Of(1)];
    assert Eligible(BOOTED, 0, Of(1)) && FirstEligible(BOOTED, 0, [Of(1)]) == Some(Of(1));
    assert Pick(BOOTED, 0, PRIO_MAX) == Some(Of(1));
    hide Pick;
    assert [Of(1)][1..] == [] && Without([Of(1)], Of(1)) == [];
    assert Select(BOOTED, 0) == DISPATCHED;
  }

  lemma ScenePreempted()
    ensures Enabled(DISPATCHED, STRANDING[4]) && Apply(DISPATCHED, STRANDING[4]) == PREEMPTED
  {
    assert Bucket(DISPATCHED, PRIO_MAX) + [Of(1)] == [Of(1)];
    assert Save(DISPATCHED, 0) == PREEMPTED;
  }

  lemma SceneStranded()
    ensures Enabled(PREEMPTED, STRANDING[5]) && Apply(PREEMPTED, STRANDING[5]) == STRANDED
  {
    assert 0 in PREEMPTED.core && PREEMPTED.core[0].current == Some(Of(1));
    assert Found(PREEMPTED, Of(1));
    assert [Of(1)][1..] == [] && Without([Of(1)], Of(1)) == [];
  }

  lemma OnlyOneNotReady(s: State)
    requires Safe(s) && (forall w: Runner :: w.Of? ==> T(s, w).state != Ready)
    ensures Pick(s, 0, PRIO_MAX).None?
  {
    if Pick(s, 0, PRIO_MAX).Some? { PickedIsReady(s, 0); }
  }
}
