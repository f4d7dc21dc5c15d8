/** What a caller can tell of every kernel call: which answer it gets, and what has become of itself, of the
    waiters and of the lists. Said of the states before and after, apart from how the call gets there. */
module Outcomes {
  import opened Sequences
  import opened Kernel
  import opened Links
  import opened Operations
  import opened Inheritance
  import opened Scheduling
  import opened Preemption
  import opened Waking
  import opened NoLostWakeups
  import opened Timeouts
  import opened Runs
  import opened Ledgers
  import DeltaList
  import FullQueues
  import Ranges

  // ---------- the answers a call can give ----------

  /** Somewhere to wait: a task, with the scheduler free and time left. */
  predicate MayWait(k: State, w: Wait, isr: bool) { !isr && k.lockCount == 0 && (w.For? || w.Forever?) }

  /** The call was not to wait at all, or may not here. */
  predicate MustNotWait(k: State, w: Wait, isr: bool) { isr || k.lockCount != 0 || w.Nothing? }

  /** It has waited as long as it was told to. */
  predicate WaitedOut(k: State, w: Wait, isr: bool) { !MustNotWait(k, w, isr) && w.Spent? }

  /** c sleeps on q for as long as it was told: queued there, in the delay list exactly for a bounded wait and
      due then, a switch requested. */
  ghost predicate Asleep(k': State, c: Task, q: WaitQ, w: Wait) {
    && T(k', c).state == Blocked && T(k', c).waitList == Some(q) && c in WaitersOf(k', q) && T(k', c).doing == Some(q)
    && !T(k', c).signaled && T(k', c).wokenFrom.None? && (T(k', c).timed <==> w.For?)
    && (c in DeltaList.Ids(k'.delay) <==> w.For?) && (w.For? ==> DeltaList.TicksLeft(k'.delay, c) == w.ticks)
    && k'.pendSv
  }

  /** c runs, outside every wait and every list. */
  ghost predicate OutOfWaits(k': State, c: Task) {
    && k'.current == Some(c) && T(k', c).state == Running && T(k', c).waitList.None? && (forall q :: c !in WaitersOf(k', q))
    && T(k', c).doing.None? && T(k', c).wokenFrom.None? && !T(k', c).signaled && T(k', c).blockedOn.None? && T(k', c).piOwner == 0
  }

  /** Moreover nobody else and no delay was touched, but for priorities. */
  ghost predicate RunsOn(k: State, k': State, c: Task) {
    OutOfWaits(k', c) && k'.delay == k.delay && forall x :: x != c ==> T(k', x) == T(k, x).(prio := T(k', x).prio)
  }

  /** Moreover no list differs, and no priority. */
  ghost predicate RunsUntouched(k: State, k': State, c: Task) {
    && RunsOn(k, k', c) && k'.waiters == k.waiters && k'.ready == k.ready && k'.bitmap == k.bitmap && k'.pendSv == k.pendSv
    && forall x :: T(k', x).prio == T(k, x).prio
  }

  /** The first waiter of q, if there is one, has left with a wake it has yet to use and stands behind its
      equals; the others wait on. */
  ghost predicate FirstWoken(k: State, k': State, q: WaitQ) {
    WaitersOf(k, q) != [] ==>
      var h := WaitersOf(k, q)[0];
      && T(k', h).state == Ready && T(k', h).signaled && T(k', h).wokenFrom == Some(q) && T(k', h).waitList.None?
      && h !in DeltaList.Ids(k'.delay) && LastReady(k', h)
      && forall x :: x in WaitersOf(k', q) <==> x != h && x in WaitersOf(k, q)
  }

  /** t is the last of the ready tasks of its priority. */
  predicate LastReady(k: State, t: Task) {
    var b := Bucket(k, T(k, t).prio);
    b != [] && b[|b| - 1] == t
  }

  // ---------- pieces ----------

  lemma SafeFacts(k: State)
    requires Safe(k)
    ensures Linked(k) && Protocol(k) && Scheduled(k) && Delayed(k)
  {
    hide Scheduled, DelayedBut;
  }

  lemma SleepersAreListed(k: State, t: Task)
    requires Delayed(k)
    ensures t in DeltaList.Ids(k.delay) <==> Sleeping(T(k, t))
  {
    var none: multiset<Task> := multiset{};
    assert Entries(k, t) + none[t] == if Sleeping(T(k, t)) then 1 else 0;
  }

  /** A wait begun by a running task outside every list. */
  lemma BeginOutcome(k: State, c: Task, q: WaitQ, w: Wait)
    requires Linked(WaitBegin(k, c, q, w)) && Delayed(WaitBegin(k, c, q, w)) && c !in DeltaList.Ids(k.delay)
    requires Becomes(k, WaitBegin(k, c, q, w), c, Queueing(T(k, c), q, w)) && k.lockCount == 0
    ensures Asleep(WaitBegin(k, c, q, w), c, q, w)
  {
    var k' := WaitBegin(k, c, q, w);
    BecomesAt(k, k', c, Queueing(T(k, c), q, w));
    WaitBeginDelay(k, c, q, w);
    BeginPends(k, c, q, w);
    hide Linked, Becomes, WaitBegin, DelayedBut;
    WaitsIsQueued(k', q, c);
    SleepersAreListed(k', c);
    if w.For? { DeltaList.InsertTicksLeft(k.delay, c, w.ticks, c); }
  }

  lemma BeginPends(k: State, c: Task, q: WaitQ, w: Wait)
    requires k.lockCount == 0
    ensures WaitBegin(k, c, q, w).pendSv
  {
    hide Ranked, T, DeltaList.Insert, WaitersOf;
  }

  /** The call ends for a caller in no list: whatever led to k1 left it running. */
  lemma EndOutcome(k: State, k1: State, c: Task)
    requires Linked(k1) && k1.current == Some(c) && Live(k1, c) && T(k1, c).state == Running && T(k1, c).waitList.None?
    requires k1.delay == k.delay && forall x :: x != c ==> T(k1, x) == T(k, x).(prio := T(k1, x).prio)
    ensures RunsOn(k, WaitEnd(k1, false), c) && T(WaitEnd(k1, false), c).owned == T(k1, c).owned
    ensures WaitEnd(k1, false) == SetTcb(k1, c, T(WaitEnd(k1, false), c)) && T(WaitEnd(k1, false), c).prio == T(k1, c).prio
  {
    var k' := WaitEnd(k1, false);
    WaitEndFrame(k1, c);
    forall q ensures c !in WaitersOf(k', q) { WaitsIsQueued(k', q, c); }
  }

  lemma EndUntouched(k: State, c: Task)
    requires Linked(k) && k.current == Some(c) && Live(k, c) && T(k, c).state == Running && T(k, c).waitList.None?
    ensures RunsUntouched(k, WaitEnd(k, false), c)
  {
    EndOutcome(k, k, c);
    hide Linked, WaitEnd;
  }

  lemma PlainBegin(k: State, c: Task, q: WaitQ, w: Wait)
    requires Safe(k) && Caller(k, c, q) && !q.OfMutex? && k.lockCount == 0 && Avail(k, q) == 0
    ensures Asleep(WaitBegin(k, c, q, w), c, q, w)
  {
    assert Protocol(k) && Delayed(k);
    PlainWaitSafe(k, c, q, w);
    SleepersAreListed(k, c);
    hide Protocol, DelayedBut, WaitBegin, Becomes, Scheduled, Asleep;
    PlainWaitStep(k, c, q, w);
    ProtocolLinks(WaitBegin(k, c, q, w));
    BeginOutcome(k, c, q, w);
  }

  lemma CallerRuns(k: State, c: Task, q: WaitQ)
    requires Safe(k) && Caller(k, c, q)
    ensures Linked(k) && k.current == Some(c) && Live(k, c) && T(k, c).state == Running && T(k, c).waitList.None?
    ensures c != IDLE && c !in DeltaList.Ids(k.delay) && T(k, c).blockedOn.None?
  {
    CallerFacts(k, c, q);
    SleepersAreListed(k, c);
  }

  // ---------- wakes ----------

  lemma MadeReadyIsLast(k: State, t: Task)
    ensures LastReady(PreemptRequest(MakeReady(k, t), t), t)
  {
    var k1 := MakeReady(k, t);
    hide *;
    MadeLast(k, t);
    RequestReady(k1, t);
  }

  lemma MadeLast(k: State, t: Task)
    ensures LastReady(MakeReady(k, t), t)
  {
  }

  lemma RequestReady(k: State, t: Task)
    ensures PreemptRequest(k, t).ready == k.ready && PreemptRequest(k, t).tcb == k.tcb && PreemptRequest(k, t).bitmap == k.bitmap
    ensures LastReady(k, t) ==> LastReady(PreemptRequest(k, t), t)
  {
    RequestFrame(k, t);
    assert PreemptRequest(k, t).ready == k.ready;
    hide PreemptRequest;
  }

  lemma WokenHead(k: State, q: WaitQ)
    requires Linked(k) && Delayed(k) && WaitersOf(k, q) != []
    ensures var h := WaitersOf(k, q)[0]; var k' := WakeOne(k, q);
            && T(k', h).state == Ready && T(k', h).signaled && T(k', h).wokenFrom == Some(q) && T(k', h).waitList.None?
            && h !in DeltaList.Ids(k'.delay) && LastReady(k', h)
  {
    var h := WaitersOf(k, q)[0];
    hide Linked, DelayedBut, WakeOne, LastReady, Becomes, Sleeping;
    WakeOneFrame(k, q);
    WakeOneDelayed(k, q);
    BecomesAt(k, WakeOne(k, q), h, Signaled(T(k, h), q));
    AwakeUnlisted(WakeOne(k, q), h);
    WokenIsLast(k, q);
  }

  lemma AwakeUnlisted(k: State, t: Task)
    requires Delayed(k) && T(k, t).state != Blocked
    ensures t !in DeltaList.Ids(k.delay)
  {
    hide DelayedBut;
    SleepersAreListed(k, t);
  }

  lemma WokenIsLast(k: State, q: WaitQ)
    requires WaitersOf(k, q) != []
    ensures LastReady(WakeOne(k, q), WaitersOf(k, q)[0])
  {
    hide Unlink, MakeReady, PreemptRequest, LastReady;
    var h := WaitersOf(k, q)[0];
    MadeReadyIsLast(SetTcb(Unlink(k, h), h, T(Unlink(k, h), h).(signaled := true, wokenFrom := Some(q))), h);
  }

  lemma WakeOneOutcome(k: State, q: WaitQ)
    requires Linked(k) && Delayed(k)
    ensures FirstWoken(k, WakeOne(k, q), q)
  {
    hide Linked, DelayedBut, WakeOne, LastReady, Becomes;
    if WaitersOf(k, q) != [] {
      WokenHead(k, q);
      WakeOneFrame(k, q);
      forall x ensures x in WaitersOf(WakeOne(k, q), q) <==> x != WaitersOf(k, q)[0] && x in WaitersOf(k, q) {
        FullQueues.OthersWait(k, q, x);
        WaitsIsQueued(WakeOne(k, q), q, x);
      }
    }
  }

  /** Ending the caller's own call leaves a wake just given as it is. */
  lemma EndKeepsWoken(k: State, k1: State, q: WaitQ, isr: bool)
    requires FirstWoken(k, k1, q) && (!isr ==> k1.current.Some? && (WaitersOf(k, q) != [] ==> k1.current.value != WaitersOf(k, q)[0]))
    ensures FirstWoken(k, WaitEnd(k1, isr), q)
  {
  }

  lemma SameListWoken(k: State, k0: State, k': State, q: WaitQ)
    requires FirstWoken(k0, k', q) && WaitersOf(k0, q) == WaitersOf(k, q)
    ensures FirstWoken(k, k', q)
  {
  }

  // ---------- semaphores ----------

  lemma GiveArms(k: State, s: nat)
    ensures SemGive(k, s) == if S(k, s).count < S(k, s).max then (WakeOne(WithSem(k, s, S(k, s).count + 1), OfSem(s)), Ok) else (k, FullErr)
    ensures WaitersOf(WithSem(k, s, S(k, s).count + 1), OfSem(s)) == WaitersOf(k, OfSem(s))
    ensures OnlyCounters(k, WithSem(k, s, S(k, s).count + 1))
    ensures S(WithSem(k, s, S(k, s).count + 1), s).count == S(k, s).count + 1
  {
    hide WakeOne;
  }

  /** os_sem_give: full, or one token more and the first waiter woken. */
  lemma SemGiveOutcome(k: State, s: nat)
    requires Safe(k)
    ensures var (k', status) := SemGive(k, s);
            && (status == Ok <==> S(k, s).count < S(k, s).max) && (status == FullErr <==> S(k, s).count >= S(k, s).max)
            && (status == Ok ==> S(k', s).count == S(k, s).count + 1 && FirstWoken(k, k', OfSem(s)))
            && (status == FullErr ==> k' == k)
  {
    hide *;
    SafeFacts(k);
    var k1 := WithSem(k, s, S(k, s).count + 1);
    GiveArms(k, s);
    CountersSafe(k, k1);
    OnlyCountersLinked(k, k1);
    WakeOneOutcome(k1, OfSem(s));
    SameListWoken(k, k1, WakeOne(k1, OfSem(s)), OfSem(s));
    WakeOneSame(k1, OfSem(s));
  }

  lemma WakeOneSame(k: State, q: WaitQ)
    requires Linked(k)
    ensures SameObjects(k, WakeOne(k, q))
    ensures forall s :: S(WakeOne(k, q), s) == S(k, s)
    ensures forall i :: Q(WakeOne(k, q), i) == Q(k, i)
    ensures WakeOne(k, q).current == k.current && WakeOne(k, q).lockCount == k.lockCount
  {
    WakeOneFrame(k, q);
    hide Linked, WakeOne;
  }

  lemma TakeArms(k: State, c: Task, s: nat, w: Wait, isr: bool)
    ensures SemTake(k, c, s, w, isr) ==
            if S(k, s).count > 0 then (WaitEnd(WithSem(k, s, S(k, s).count - 1), isr), Ok)
            else if MustNotWait(k, w, isr) then (WaitEnd(k, isr), EmptyErr)
            else if w.Spent? then (WaitEnd(k, isr), TimedOut)
            else (WaitBegin(k, c, OfSem(s), w), Waiting)
    ensures MayWait(k, w, isr) <==> !MustNotWait(k, w, isr) && !w.Spent?
    ensures WaitedOut(k, w, isr) <==> !MustNotWait(k, w, isr) && w.Spent?
    ensures S(k, s).count == 0 <==> Avail(k, OfSem(s)) == 0
  {
    hide WaitEnd, WaitBegin;
  }

  /** A token gone, the call closed. */
  lemma TakenOutcome(k: State, c: Task, s: nat, isr: bool)
    requires Linked(k) && S(k, s).count > 0
    requires !isr ==> k.current == Some(c) && Live(k, c) && T(k, c).state == Running && T(k, c).waitList.None?
    ensures var k' := WaitEnd(WithSem(k, s, S(k, s).count - 1), isr);
            && S(k', s).count == S(k, s).count - 1 && (!isr ==> RunsUntouched(k, k', c)) && (isr ==> k' == k.(sems := k'.sems))
  {
    var k1 := WithSem(k, s, S(k, s).count - 1);
    OnlyCountersLinked(k, k1);
    hide Linked, RunsUntouched;
    if isr { IsrEndsNothing(k1); } else { EndUntouched(k1, c); TakenUntouched(k, k1, c); EndObjects(k1, isr); }
  }

  lemma EmptyHanded(k: State, c: Task, isr: bool)
    requires Linked(k)
    requires !isr ==> k.current == Some(c) && Live(k, c) && T(k, c).state == Running && T(k, c).waitList.None?
    ensures var k' := WaitEnd(k, isr); SameObjects(k, k') && (!isr ==> RunsUntouched(k, k', c)) && (isr ==> k' == k)
  {
    hide Linked, RunsUntouched;
    if isr { IsrEndsNothing(k); } else { EndUntouched(k, c); }
    EndObjects(k, isr);
  }

  /** os_sem_take: it waits if and only if there is no token and it may, and a poll never blocks. */
  lemma SemTakeOutcome(k: State, c: Task, s: nat, w: Wait, isr: bool)
    requires Safe(k) && (!isr ==> Caller(k, c, OfSem(s)))
    ensures var (k', status) := SemTake(k, c, s, w, isr); var none := S(k, s).count == 0;
            && (status == Ok <==> !none) && (status == Waiting <==> none && MayWait(k, w, isr))
            && (status == EmptyErr <==> none && MustNotWait(k, w, isr)) && (status == TimedOut <==> none && WaitedOut(k, w, isr))
            && (status == Waiting ==> Asleep(k', c, OfSem(s), w))
            && (status == Ok ==> S(k', s).count == S(k, s).count - 1) && (status != Ok ==> SameObjects(k, k'))
            && (status != Waiting && !isr ==> RunsUntouched(k, k', c)) && (isr ==> k' == k.(sems := k'.sems))
  {
    hide *;
    SafeFacts(k);
    if !isr { CallerRuns(k, c, OfSem(s)); }
    TakeArms(k, c, s, w, isr);
    if S(k, s).count > 0 { TakenOutcome(k, c, s, isr); }
    else if MustNotWait(k, w, isr) || w.Spent? { EmptyHanded(k, c, isr); }
    else { NotBarred(k, w, isr); PlainBegin(k, c, OfSem(s), w); BeginObjects(k, c, OfSem(s), w); }
  }

  lemma NotBarred(k: State, w: Wait, isr: bool)
    requires !MustNotWait(k, w, isr)
    ensures !isr && k.lockCount == 0
  {
  }

  /** Counters are no part of what a caller is told about lists and tasks. */
  lemma TakenUntouched(k: State, k1: State, c: Task)
    requires OnlyCounters(k, k1)
    ensures RunsUntouched(k1, WaitEnd(k1, false), c) ==> RunsUntouched(k, WaitEnd(k1, false), c)
  {
    assert forall x :: T(k1, x) == T(k, x);
    hide WaitEnd;
  }

  // ---------- queues ----------

  lemma EndAfterWake(k: State, c: Task, x: WaitQ, isr: bool)
    requires Linked(k) && Delayed(k)
    requires !isr ==> k.current == Some(c) && Live(k, c) && T(k, c).state == Running && T(k, c).waitList.None?
    ensures var k' := WaitEnd(WakeOne(k, x), isr); SameObjects(k, k') && FirstWoken(k, k', x) && (!isr ==> OutOfWaits(k', c))
  {
    var k1 := WakeOne(k, x);
    hide Linked, WakeOne, DelayedBut, FirstWoken, WaitEnd, OutOfWaits;
    WakeOneFrame(k, x);
    WakeOneOutcome(k, x);
    WakeOneSame(k, x);
    EndObjects(k1, isr);
    if isr {
      IsrEndsNothing(k1);
    } else {
      WaitsIsQueued(k, x, c);
      if WaitersOf(k, x) != [] { assert WaitersOf(k, x)[0] in WaitersOf(k, x); }
      EndKeepsWoken(k, k1, x, isr);
      WakerRunsOn(k, c, x);
    }
  }

  lemma WakerRunsOn(k: State, c: Task, x: WaitQ)
    requires Linked(k) && k.current == Some(c) && Live(k, c) && T(k, c).state == Running && T(k, c).waitList.None?
    ensures OutOfWaits(WaitEnd(WakeOne(k, x), false), c)
  {
    var k1 := WakeOne(k, x);
    hide Linked, WakeOne, WaitEnd;
    WakeOneFrame(k, x);
    Bystander(k, x, c);
    EndOutcome(k1, k1, c);
  }

  /** The count after a store, a receive, or neither, and what stands on its two sides. */
  lemma QueueCounts(k: State, q: nat, n: nat, x: WaitQ)
    ensures var k1 := WithQueue(k, q, n);
            && OnlyCounters(k, k1) && Q(k1, q).count == n && Q(k1, q).capacity == Q(k, q).capacity
            && WaitersOf(k1, x) == WaitersOf(k, x) && forall t :: T(k1, t) == T(k, t)
  {
  }

  predicate Replaces(o: QueueObj) { o.mode == Overwrite && o.capacity != 0 }

  lemma SendAnswers(k: State, c: Task, q: nat, w: Wait, isr: bool)
    ensures var o := Q(k, q);
            QueueSend(k, c, q, w, isr) ==
            if o.count < o.capacity then (WaitEnd(WakeOne(WithQueue(k, q, o.count + 1), Receivers(q)), isr), Ok)
            else if MayWait(k, w, isr) then (WaitBegin(k, c, Senders(q), w), Waiting)
            else if Replaces(o) then (WaitEnd(WakeOne(k, Receivers(q)), isr), Ok)
            else (WaitEnd(k, isr), if MustNotWait(k, w, isr) then FullErr else TimedOut)
    ensures MayWait(k, w, isr) <==> !MustNotWait(k, w, isr) && !w.Spent?
    ensures WaitedOut(k, w, isr) <==> !MustNotWait(k, w, isr) && w.Spent?
    ensures Q(k, q).count >= Q(k, q).capacity <==> Avail(k, Senders(q)) == 0
  {
    hide WaitEnd, WaitBegin, WakeOne;
  }

  /** One count moved, the other side's first waiter woken, the call closed. */
  lemma MovedOutcome(k: State, c: Task, q: nat, n: nat, x: WaitQ, isr: bool)
    requires Safe(k)
    requires !isr ==> k.current == Some(c) && Live(k, c) && T(k, c).state == Running && T(k, c).waitList.None?
    ensures var k' := WaitEnd(WakeOne(WithQueue(k, q, n), x), isr);
            && Q(k', q).count == n && FirstWoken(k, k', x) && (!isr ==> OutOfWaits(k', c))
  {
    hide *;
    SafeFacts(k);
    var k1 := WithQueue(k, q, n);
    QueueCounts(k, q, n, x);
    CountersSafe(k, k1);
    OnlyCountersLinked(k, k1);
    SameTcbs(k, k1, c);
    EndAfterWake(k1, c, x, isr);
    SameListWoken(k, k1, WaitEnd(WakeOne(k1, x), isr), x);
    SameQueues(k1, WaitEnd(WakeOne(k1, x), isr), q);
  }

  lemma SameTcbs(k: State, k1: State, c: Task)
    requires OnlyCounters(k, k1)
    ensures k1.current == k.current && (Live(k1, c) <==> Live(k, c)) && T(k1, c) == T(k, c)
  {
  }

  lemma SameQueues(k: State, k': State, q: nat)
    requires SameObjects(k, k')
    ensures Q(k', q) == Q(k, q)
  {
  }

  /** os_queue_send waits if and only if the queue is full and it may; a full queue that replaces takes the
      item instead of refusing it. */
  lemma QueueSendAnswer(k: State, c: Task, q: nat, w: Wait, isr: bool)
    ensures var status := QueueSend(k, c, q, w, isr).1; var o := Q(k, q); var full := o.count >= o.capacity;
            && (status == Ok <==> !full || (Replaces(o) && !MayWait(k, w, isr))) && (status == Waiting <==> full && MayWait(k, w, isr))
            && (status == FullErr <==> full && !Replaces(o) && MustNotWait(k, w, isr))
            && (status == TimedOut <==> full && !Replaces(o) && WaitedOut(k, w, isr))
  {
    hide *;
    SendAnswers(k, c, q, w, isr);
  }

  /** A stored item wakes the first receiver; a caller that waits sleeps among the senders; a refused one runs on
      and nothing has moved. */
  lemma QueueSendOutcome(k: State, c: Task, q: nat, w: Wait, isr: bool)
    requires Safe(k) && (!isr ==> Caller(k, c, Senders(q)))
    ensures var (k', status) := QueueSend(k, c, q, w, isr); var o := Q(k, q); var full := o.count >= o.capacity;
            && (status == Waiting ==> Asleep(k', c, Senders(q), w))
            && (status == Ok ==> FirstWoken(k, k', Receivers(q)) && (!isr ==> OutOfWaits(k', c)))
            && Q(k', q).count == (if full then o.count else o.count + 1)
            && (status == FullErr || status == TimedOut ==> (!isr ==> RunsUntouched(k, k', c)) && (isr ==> k' == k))
  {
    hide *;
    SafeFacts(k);
    if !isr { CallerRuns(k, c, Senders(q)); }
    SendAnswers(k, c, q, w, isr);
    var o := Q(k, q);
    if o.count < o.capacity {
      MovedOutcome(k, c, q, o.count + 1, Receivers(q), isr);
    } else if MayWait(k, w, isr) {
      NotBarred(k, w, isr);
      PlainBegin(k, c, Senders(q), w);
      BeginObjects(k, c, Senders(q), w);
      SameQueues(k, WaitBegin(k, c, Senders(q), w), q);
    } else if Replaces(o) {
      EndAfterWake(k, c, Receivers(q), isr);
      SameQueues(k, WaitEnd(WakeOne(k, Receivers(q)), isr), q);
    } else {
      EmptyHanded(k, c, isr);
      SameQueues(k, WaitEnd(k, isr), q);
    }
  }

  lemma ReceiveAnswers(k: State, c: Task, q: nat, w: Wait, isr: bool)
    ensures QueueReceive(k, c, q, w, isr) ==
            if Q(k, q).count > 0 then (WaitEnd(WakeOne(WithQueue(k, q, Q(k, q).count - 1), Senders(q)), isr), Ok)
            else if MayWait(k, w, isr) then (WaitBegin(k, c, Receivers(q), w), Waiting)
            else (WaitEnd(k, isr), if MustNotWait(k, w, isr) then EmptyErr else TimedOut)
    ensures MayWait(k, w, isr) <==> !MustNotWait(k, w, isr) && !w.Spent?
    ensures WaitedOut(k, w, isr) <==> !MustNotWait(k, w, isr) && w.Spent?
    ensures Q(k, q).count == 0 <==> Avail(k, Receivers(q)) == 0
  {
    hide WaitEnd, WaitBegin, WakeOne;
  }

  lemma QueueReceiveAnswer(k: State, c: Task, q: nat, w: Wait, isr: bool)
    ensures var status := QueueReceive(k, c, q, w, isr).1; var none := Q(k, q).count == 0;
            && (status == Ok <==> !none) && (status == Waiting <==> none && MayWait(k, w, isr))
            && (status == EmptyErr <==> none && MustNotWait(k, w, isr)) && (status == TimedOut <==> none && WaitedOut(k, w, isr))
  {
    hide *;
    ReceiveAnswers(k, c, q, w, isr);
  }

  /** os_queue_receive, likewise. */
  lemma QueueReceiveOutcome(k: State, c: Task, q: nat, w: Wait, isr: bool)
    requires Safe(k) && (!isr ==> Caller(k, c, Receivers(q)))
    ensures var (k', status) := QueueReceive(k, c, q, w, isr); var none := Q(k, q).count == 0;
            && (status == Waiting ==> Asleep(k', c, Receivers(q), w))
            && (status == Ok ==> FirstWoken(k, k', Senders(q)) && (!isr ==> OutOfWaits(k', c)))
            && Q(k', q).count == (if none then 0 else Q(k, q).count - 1)
            && (status == EmptyErr || status == TimedOut ==> (!isr ==> RunsUntouched(k, k', c)) && (isr ==> k' == k))
  {
    hide *;
    SafeFacts(k);
    if !isr { CallerRuns(k, c, Receivers(q)); }
    ReceiveAnswers(k, c, q, w, isr);
    if Q(k, q).count > 0 {
      MovedOutcome(k, c, q, Q(k, q).count - 1, Senders(q), isr);
    } else if MayWait(k, w, isr) {
      NotBarred(k, w, isr);
      PlainBegin(k, c, Receivers(q), w);
      BeginObjects(k, c, Receivers(q), w);
      SameQueues(k, WaitBegin(k, c, Receivers(q), w), q);
    } else {
      EmptyHanded(k, c, isr);
      SameQueues(k, WaitEnd(k, isr), q);
    }
  }

  // ---------- mutexes: who is lifted ----------

  /** A waiter's priority is a floor for the owner it waits for. */
  lemma OwnerOwesWaiter(k: State, t: Task, m: Mutex, w: Task)
    requires Linked(k) && M(k, m).locked && M(k, m).owner == t && T(k, w).waitList == Some(OfMutex(m))
    ensures Effective(k, t) >= T(k, w).prio && Live(k, t)
  {
    OwnersLive(k, m) by { LockedOwned(k, m); }
    assert Held(k, t, m) == 1;
    WaitsIsQueued(k, OfMutex(m), w);
    EffectiveIsOwed(k, t, Effective(k, t));
  }

  /** One link of the walk. */
  lemma WalkIs(k: State, t: Task, n: nat)
    ensures n > 0 && Live(k, t) ==>
            var k1 := EffectivePrioritySet(k, t, Effective(k, t));
            PriorityRecompute(k, t, n) ==
            if T(k1, t).blockedOn.None? then k1 else PriorityRecompute(k1, M(k1, T(k1, t).blockedOn.value).owner, n - 1)
    ensures n == 0 || !Live(k, t) ==> PriorityRecompute(k, t, n) == k
  {
    hide EffectivePrioritySet, Effective;
  }

  /** A wait edge is a place in the mutex's list. */
  lemma EdgeIsWait(k: State, t: Task)
    requires Linked(k) && T(k, t).blockedOn.Some?
    ensures T(k, t).waitList == Some(OfMutex(T(k, t).blockedOn.value))
  {
    EdgesHold(k, t);
    hide Linked;
  }

  lemma OwesWaiter(k: State, m: Mutex, w: Task)
    requires Linked(k) && Live(k, M(k, m).owner) && T(k, w).waitList == Some(OfMutex(m))
    ensures Effective(k, M(k, m).owner) >= T(k, w).prio
  {
    assert IDLE !in k.tcb;
    LockedOwned(k, m);
    hide Linked, Effective;
    OwnerOwesWaiter(k, M(k, m).owner, m, w);
  }

  /** The walk along a wait chain never lowers a task below the priority its waiters bring along. */
  lemma {:induction false} RecomputeKeepsFloor(k: State, prev: Task, m: Mutex, n: nat, o: Task, p: nat)
    requires Linked(k) && T(k, prev).waitList == Some(OfMutex(m)) && T(k, prev).prio >= p && T(k, o).prio >= p
    ensures T(PriorityRecompute(k, M(k, m).owner, n), o).prio >= p
    decreases n
  {
    hide *;
    var t := M(k, m).owner;
    WalkIs(k, t, n);
    if n > 0 && Live(k, t) {
      OwesWaiter(k, m, prev);
      var k1 := EffectivePrioritySet(k, t, Effective(k, t));
      PrioritySetLinked(k, t, Effective(k, t));
      FloorStep(k, t, Effective(k, t), o);
      if T(k1, t).blockedOn.Some? {
        EdgeIsWait(k1, t);
        RecomputeKeepsFloor(k1, t, T(k1, t).blockedOn.value, n - 1, o, p);
      }
    }
  }

  lemma FloorStep(k: State, t: Task, p: nat, o: Task)
    requires Linked(k) && Live(k, t)
    ensures var k1 := EffectivePrioritySet(k, t, p); T(k1, t).prio == p && (o != t ==> T(k1, o).prio == T(k, o).prio)
    ensures EffectivePrioritySet(k, t, p).mutexes == k.mutexes
  {
    hide EffectivePrioritySet, OnlyPriorities;
    PrioritySetFrame(k, t, p);
  }

  /** A task about to wait behind o leaves o at least as urgent as itself. */
  lemma InheritLifts(k: State, c: Task, o: Task)
    requires Linked(k) && Live(k, c) && Live(k, o) && EdgeOf(T(k, c).doing).Some? && c != o
    ensures T(PriorityInherit(k, c, o), o).prio >= T(k, c).prio
  {
    EdgesHold(k, c);
    var r := T(k, c).(piOwner := o);
    var k1 := SetTcb(k, c, r);
    LocalFrame(k, c, r);
    hide Linked, EffectivePrioritySet, PriorityRecompute;
    if T(k1, c).prio > T(k1, o).prio {
      var k2 := EffectivePrioritySet(k1, o, T(k1, c).prio);
      PrioritySetLinked(k1, o, T(k1, c).prio);
      FloorStep(k1, o, T(k1, c).prio, o);
      if T(k2, o).blockedOn.Some? {
        EdgesHold(k2, o);
        RecomputeKeepsFloor(k2, o, T(k2, o).blockedOn.value, MAX_DEPTH, o, T(k1, c).prio);
      }
    }
  }

  // ---------- mutexes: the calls ----------

  lemma LockAnswers(k: State, c: Task, m: Mutex, w: Wait)
    ensures MutexLock(k, c, m, w) ==
            if !M(k, m).locked then (WaitEnd(OwnerLink(WithMutex(k, m, MutexObj(true, c)), c, m), false), Ok)
            else if M(k, m).owner == c || MustNotWait(k, w, false) then (WaitEnd(WaiterDepart(k, c), false), BusyErr)
            else if w.Spent? then (WaitEnd(WaiterDepart(k, c), false), TimedOut)
            else (WaitBegin(LockPending(k, c, m, w), c, OfMutex(m), w), Waiting)
    ensures MayWait(k, w, false) <==> !MustNotWait(k, w, false) && !w.Spent?
    ensures WaitedOut(k, w, false) <==> !MustNotWait(k, w, false) && w.Spent?
  {
    hide WaitEnd, WaitBegin, OwnerLink, WaiterDepart, PriorityInherit;
  }

  lemma AcquiredOutcome(k: State, c: Task, m: Mutex)
    requires Safe(k) && Caller(k, c, OfMutex(m)) && !M(k, m).locked
    ensures var k' := WaitEnd(OwnerLink(WithMutex(k, m, MutexObj(true, c)), c, m), false);
            M(k', m) == MutexObj(true, c) && T(k', c).owned == T(k, c).owned + [m] && RunsOn(k, k', c)
  {
    hide Safe, Linked, Becomes, OnlyPriorities, OwnerLink, WaitEnd, OutOfWaits;
    var k0 := WithMutex(k, m, MutexObj(true, c));
    var k1 := OwnerLink(k0, c, m);
    CallerRuns(k, c, OfMutex(m));
    OwnerLinkFrame(k, c, m);
    OnlyPrioritiesDelay(Acquired(k, c, m), k1);
    BecomesAt(k0, k1, c, T(k, c).(owned := T(k, c).owned + [m]));
    forall x | x != c ensures T(k1, x) == T(k, x).(prio := T(k1, x).prio) { BecomesOther(k0, k1, c, T(k, c).(owned := T(k, c).owned + [m]), x); }
    EndOutcome(k, k1, c);
    EndObjects(k1, false);
  }

  lemma RefusedOutcome(k: State, c: Task, m: Mutex)
    requires Safe(k) && Caller(k, c, OfMutex(m))
    ensures var k' := WaitEnd(WaiterDepart(k, c), false);
            SameObjects(k, k') && T(k', c).owned == T(k, c).owned && RunsOn(k, k', c)
  {
    var k1 := WaiterDepart(k, c);
    CallerRuns(k, c, OfMutex(m));
    WaiterDepartFrame(k, c);
    DepartKeepsDelay(k, c);
    BecomesAt(k, k1, c, Released(T(k, c)));
    BecomesSameObjects(k, k1, c, Released(T(k, c)));
    forall x | x != c ensures T(k1, x) == T(k, x).(prio := T(k1, x).prio) { BecomesOther(k, k1, c, Released(T(k, c)), x); }
    hide Safe, Linked, Becomes, WaiterDepart, WaitEnd, OutOfWaits;
    EndOutcome(k, k1, c);
    EndObjects(k1, false);
  }

  lemma DepartKeepsDelay(k: State, c: Task)
    requires Linked(k) && Live(k, c) && T(k, c).waitList.None?
    ensures WaiterDepart(k, c).delay == k.delay
  {
    EdgesHold(k, c);
    hide Linked, PriorityRecompute;
    LocalFrame(k, c, Released(T(k, c)));
    RecomputeDelay(SetTcb(k, c, Released(T(k, c))), DebtOwner(k, c), MAX_DEPTH);
  }

  /** A contended lock that may wait: the caller sleeps on the mutex and its owner is at least as urgent. */
  lemma LockWaitOutcome(k: State, c: Task, m: Mutex, w: Wait)
    requires Safe(k) && Caller(k, c, OfMutex(m)) && M(k, m).locked && M(k, m).owner != c && k.lockCount == 0
    ensures var k' := WaitBegin(LockPending(k, c, m, w), c, OfMutex(m), w);
            && Asleep(k', c, OfMutex(m), w) && T(k', c).blockedOn == Some(m) && (T(k', c).blockedForever <==> w.Forever?)
            && T(k', M(k, m).owner).prio >= T(k, c).prio && k'.mutexes == k.mutexes
  {
    var k2 := LockPending(k, c, m, w);
    var k' := WaitBegin(k2, c, OfMutex(m), w);
    assert Delayed(k);
    CallerRuns(k, c, OfMutex(m));
    LockWaitFrame(k, c, m, w);
    LockWaitDelayed(k, c, m, w);
    Ranges.PendingDelay(k, c, m, w);
    BecomesAt(k, k2, c, T(k2, c));
    BecomesAt(k2, k', c, Queueing(T(k2, c), OfMutex(m), w));
    PendingLifts(k, c, m, w);
    hide Safe, Linked, Becomes, LockPending, WaitBegin, DelayedBut, Asleep;
    BeginOutcome(k2, c, OfMutex(m), w);
    BeginOthers(k2, c, OfMutex(m), w, M(k, m).owner);
  }

  lemma BeginOthers(k: State, c: Task, q: WaitQ, w: Wait, x: Task)
    requires x != c
    ensures T(WaitBegin(k, c, q, w), x) == T(k, x)
  {
    hide Ranked;
  }

  lemma PendingLifts(k: State, c: Task, m: Mutex, w: Wait)
    requires Linked(k) && Live(k, c) && T(k, c).waitList.None? && M(k, m).locked && M(k, m).owner != c
    ensures T(LockPending(k, c, m, w), M(k, m).owner).prio >= T(k, c).prio
  {
    EdgesHold(k, c);
    var r := T(k, c).(doing := Some(OfMutex(m)));
    LocalFrame(k, c, r);
    OwnersLive(k, m) by { LockedOwned(k, m); }
    hide Linked, PriorityInherit;
    InheritLifts(SetTcb(k, c, r), c, M(k, m).owner);
  }

  /** os_mutex_lock: it waits if and only if somebody else holds the mutex and it may; then the caller sleeps
      in the mutex's list and the holder is lifted to it. A refused caller runs on, in no list. */
  lemma MutexLockOutcome(k: State, c: Task, m: Mutex, w: Wait)
    requires Safe(k) && Caller(k, c, OfMutex(m))
    ensures var (k', status) := MutexLock(k, c, m, w); var held := M(k, m).locked; var o := M(k, m).owner;
            && (status == Ok <==> !held) && (status == Waiting <==> held && o != c && MayWait(k, w, false))
            && (status == BusyErr <==> held && (o == c || MustNotWait(k, w, false)))
            && (status == TimedOut <==> held && o != c && WaitedOut(k, w, false))
            && (status == Ok ==> M(k', m) == MutexObj(true, c) && T(k', c).owned == T(k, c).owned + [m])
            && (status == Waiting ==> Asleep(k', c, OfMutex(m), w) && T(k', c).blockedOn == Some(m)
                                      && (T(k', c).blockedForever <==> w.Forever?) && T(k', o).prio >= T(k, c).prio)
            && (status != Ok ==> k'.mutexes == k.mutexes) && (status != Waiting ==> RunsOn(k, k', c))
            && (status == BusyErr || status == TimedOut ==> T(k', c).owned == T(k, c).owned)
  {
    hide *;
    LockAnswers(k, c, m, w);
    if !M(k, m).locked {
      AcquiredOutcome(k, c, m);
    } else if M(k, m).owner == c || MustNotWait(k, w, false) || w.Spent? {
      RefusedOutcome(k, c, m);
      SameMutexes(k, WaitEnd(WaiterDepart(k, c), false));
    } else {
      NotBarred(k, w, false);
      LockWaitOutcome(k, c, m, w);
    }
  }

  lemma SameMutexes(k: State, k': State)
    requires SameObjects(k, k')
    ensures k'.mutexes == k.mutexes
  {
  }
}
