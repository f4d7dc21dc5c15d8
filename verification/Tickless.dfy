/** The time base (os_tick.c) over kernel and timers together: the periodic handler, the bulk announce of
    tickless idle, and the planning that keeps a window inside every deadline. */
module Tickless {
  import opened Sequences
  import opened Kernel
  import opened Links
  import opened Operations
  import opened Scheduling
  import opened Preemption
  import opened Waking
  import opened NoLostWakeups
  import opened Timeouts
  import opened Runs
  import opened Ticking
  import TM = Timers
  import DeltaList

  const TWO32: nat := 0x1_0000_0000

  /** OS_TICKLESS_MAX_IDLE_TICKS: half the range of the tick counter. */
  const MAX_IDLE: nat := 0xFFFF_FFFF / 2

  /** Everything a tick touches. `slice` is the running task's remaining quantum. */
  datatype System = System(k: State, tm: TM.TimerState, count: nat, slice: nat, timerTask: Task)

  /** os_task_reschedule_possible, with time slicing on. */
  predicate Reschedule(k: State, slice: nat) {
    && k.lockCount == 0
    && (match k.current
        case None => k.bitmap != {}
        case Some(c) => (exists b :: b in k.bitmap && b > T(k, c).prio) || (slice == 0 && T(k, c).prio in k.bitmap))
  }

  function Pend(s: System): System { if Reschedule(s.k, s.slice) then s.(k := s.k.(pendSv := true)) else s }

  /** The 32-bit tick counter. */
  function CountAfter(count: nat, n: nat): nat { (count + n) % TWO32 }
  function SliceAfter(slice: nat, n: nat): nat { if slice > n then slice - n else 0 }

  /** Timers first - an expiry wakes the timer task - then the sleepers. */
  function KernelAfter(k: State, t: Task, wake: bool, n: nat): State { TickUpdate(if wake then WakeBlocked(k, t) else k, n) }

  /** Counter, timers, delays and quantum after n ticks, before the reschedule check. */
  function Advance(s: System, n: nat): System {
    System(KernelAfter(s.k, s.timerTask, TM.TickWakes(s.tm, n), n), TM.Tick(s.tm, n), CountAfter(s.count, n),
           SliceAfter(s.slice, n), s.timerTask)
  }

  /** os_tick_handler and os_tick_announce. */
  function Handler(s: System): System { Pend(Advance(s, 1)) }
  function Announce(s: System, n: nat): System { Pend(Advance(s, n)) }

  function Handlers(s: System, n: nat): System
    decreases n
  {
    if n == 0 then s else Handlers(Handler(s), n - 1)
  }

  /** os_tickless_expected_idle_ticks_get: the nearest of all deadlines. */
  function ExpectedIdle(s: System): nat {
    var delay := if s.k.delay == [] then DeltaList.WAIT_FOREVER else s.k.delay[0].delta;
    if TM.NextExpiry(s.tm) < delay then TM.NextExpiry(s.tm) else delay
  }

  /** The timer task is a service task that only ever sleeps without a deadline. */
  ghost predicate Ready(s: System) {
    Safe(s.k) && s.count < TWO32 && !(T(s.k, s.timerTask).state == Blocked && T(s.k, s.timerTask).timed)
  }

  // ---------- a tick before every deadline ----------

  lemma NothingDue(l: seq<DeltaList.Entry>, n: nat)
    requires l != [] ==> n < l[0].delta
    ensures DeltaList.Expired(l, n) == []
    ensures DeltaList.Remaining(l, n) == if l == [] then [] else [DeltaList.Entry(l[0].id, l[0].delta - n)] + l[1..]
  {
  }

  /** Before the first deadline a tick only counts. */
  lemma QuietAdvance(s: System, n: nat)
    requires n > 0 && n < ExpectedIdle(s)
    ensures !TM.TickWakes(s.tm, n)
    ensures Advance(s, n).k == s.k.(delay := DeltaList.Remaining(s.k.delay, n))
    ensures Advance(s, n).tm == s.tm.(running := DeltaList.Remaining(s.tm.running, n))
    ensures Advance(s, n).timerTask == s.timerTask
  {
    NothingDue(s.k.delay, n);
    NothingDue(s.tm.running, n);
  }

  lemma TimersCompose(s: System, a: nat, b: nat)
    requires 0 < a < ExpectedIdle(s) && b > 0
    ensures TM.Tick(TM.Tick(s.tm, a), b) == TM.Tick(s.tm, a + b)
    ensures TM.TickWakes(TM.Tick(s.tm, a), b) == TM.TickWakes(s.tm, a + b)
  {
    NothingDue(s.tm.running, a);
    DeltaList.AdvanceComposes(s.tm.running, a, b);
    var rest := DeltaList.Remaining(s.tm.running, a);
    assert TM.Tick(s.tm, a) == s.tm.(running := rest);
    assert DeltaList.Expired(s.tm.running, a + b) == DeltaList.Expired(rest, b);
  }

  lemma CountsCompose(count: nat, a: nat, b: nat)
    ensures CountAfter(CountAfter(count, a), b) == CountAfter(count, a + b)
  {
  }

  /** Advancing a then b is advancing a + b, as long as the first part reaches no deadline. */
  lemma AdvancesCompose(s: System, a: nat, b: nat)
    requires Ready(s) && 0 < a < ExpectedIdle(s) && b > 0
    ensures Advance(Advance(s, a), b) == Advance(s, a + b)
  {
    QuietAdvance(s, a);
    TimersCompose(s, a, b);
    CountsCompose(s.count, a, b);
    NothingDue(s.k.delay, a);
    KernelsCompose(s.k, s.timerTask, a, b, TM.TickWakes(s.tm, a + b));
    assert SliceAfter(SliceAfter(s.slice, a), b) == SliceAfter(s.slice, a + b);
    hide Safe, DeltaList.Remaining, DeltaList.Expired, TM.Tick, TM.TickWakes, ExpectedIdle, KernelAfter, CountAfter, SliceAfter;
  }

  /** The kernel's part: the wake of the timer task comes at the end of the window either way. */
  lemma KernelsCompose(k: State, t: Task, a: nat, b: nat, wake: bool)
    requires Safe(k) && !(T(k, t).state == Blocked && T(k, t).timed) && a > 0 && b > 0
    requires DeltaList.Expired(k.delay, a) == []
    ensures var k1 := k.(delay := DeltaList.Remaining(k.delay, a));
            KernelAfter(k1, t, wake, b) == KernelAfter(k, t, wake, a + b)
  {
    var rest := DeltaList.Remaining(k.delay, a);
    var k1 := k.(delay := rest);
    ProtocolLinks(k);
    var w := if wake then WakeBlocked(k, t) else k;
    WakePended(k, t);
    assert Safe(w) by { if wake { assert Enabled(k, Wake(t)); StepIsSafe(k, Wake(t)); } }
    assert w.delay == k.delay;
    assert k1 == Aside(k, rest, false);
    assert (if wake then WakeBlocked(k1, t) else k1) == Aside(w, rest, false);
    assert Aside(w, rest, false) == w.(delay := rest) == TickUpdate(w, a);
    hide Safe, WakeBlocked, TickUpdate;
    TicksCompose(w, a, b);
  }

  // ---------- bulk announce refines single ticks ----------

  /** Equal but for the pend flag, which b has set at least when a has. */
  predicate SameButPend(a: System, b: System) {
    b == a.(k := a.k.(pendSv := b.k.pendSv)) && (a.k.pendSv ==> b.k.pendSv)
  }

  lemma SafePended(k: State)
    requires Safe(k)
    ensures Safe(Pended(k))
  {
    ScheduledMeans(k);
    hide Protocol, Structured, DelayedBut;
    SameProtocol(k, Pended(k));
    FlagsKeep(k, Pended(k), {});
    SameDelayed(k, Pended(k));
  }

  lemma AdvanceReady(s: System)
    requires Ready(s) && 1 < ExpectedIdle(s)
    ensures Ready(Advance(s, 1)) && ExpectedIdle(Advance(s, 1)) >= ExpectedIdle(s) - 1
  {
    QuietAdvance(s, 1);
    NothingDue(s.k.delay, 1);
    NothingDue(s.tm.running, 1);
    var s1 := Advance(s, 1);
    assert TickUpdate(s.k, 1) == s1.k;
    assert T(s1.k, s.timerTask) == T(s.k, s.timerTask);
    TickSafe(s.k, 1);
    hide Safe, DeltaList.Remaining, DeltaList.Expired, Advance, TickUpdate;
    assert s1.count < TWO32 by { CountWraps(s); }
  }

  lemma CountWraps(s: System)
    ensures Advance(s, 1).count < TWO32
  {
    hide KernelAfter, TM.Tick;
  }

  lemma PendReady(s: System)
    requires Ready(s)
    ensures Ready(Pend(s)) && ExpectedIdle(Pend(s)) == ExpectedIdle(s)
  {
    assert T(Pended(s.k), s.timerTask) == T(s.k, s.timerTask);
    hide Safe, Reschedule;
    SafePended(s.k);
  }

  lemma HandlerReady(s: System)
    requires Ready(s) && 1 < ExpectedIdle(s)
    ensures Ready(Handler(s)) && Ready(Advance(s, 1))
    ensures ExpectedIdle(Handler(s)) >= ExpectedIdle(s) - 1 && ExpectedIdle(Advance(s, 1)) >= ExpectedIdle(s) - 1
  {
    hide Ready, ExpectedIdle, Advance, Pend;
    AdvanceReady(s);
    PendReady(Advance(s, 1));
  }

  lemma WokenSafe(s: System, wake: bool)
    requires Safe(s.k)
    ensures Safe(if wake then WakeBlocked(s.k, s.timerTask) else s.k)
  {
    hide Safe, WakeBlocked;
    assert Enabled(s.k, Wake(s.timerTask)) && Apply(s.k, Wake(s.timerTask)) == WakeBlocked(s.k, s.timerTask);
    hide *;
    StepIsSafe(s.k, Wake(s.timerTask));
  }

  lemma WakesPended(s: System)
    requires Safe(s.k) && !(T(s.k, s.timerTask).state == Blocked && T(s.k, s.timerTask).timed)
    ensures WakeBlocked(Pended(s.k), s.timerTask) == Pended(WakeBlocked(s.k, s.timerTask))
  {
    assert Protocol(s.k);
    ProtocolLinks(s.k);
    hide *;
    WakePended(s.k, s.timerTask);
    PendedIsAside(s.k);
    PendedIsAside(WakeBlocked(s.k, s.timerTask));
  }

  /** Pending a switch early changes nothing but that flag later on. */
  lemma AdvancePended(s: System, n: nat)
    requires Ready(s) && n > 0
    ensures Advance(s.(k := Pended(s.k)), n) == Advance(s, n).(k := Pended(Advance(s, n).k))
  {
    var wake := TM.TickWakes(s.tm, n);
    var w := if wake then WakeBlocked(s.k, s.timerTask) else s.k;
    hide Safe, WakeBlocked, TickUpdate, TM.Tick, TM.TickWakes, Pended;
    WokenSafe(s, wake);
    WakesPended(s);
    TickPended(w, n);
  }

  lemma PendAgain(a: System, pend: bool)
    ensures SameButPend(Pend(a), Pend(if pend then a.(k := Pended(a.k)) else a))
  {
    assert T(Pended(a.k), if a.k.current.Some? then a.k.current.value else IDLE) == T(a.k, if a.k.current.Some? then a.k.current.value else IDLE);
  }

  lemma SameButPendTwice(a: System, b: System, c: System)
    requires SameButPend(a, b) && SameButPend(b, c)
    ensures SameButPend(a, c)
  {
  }

  /** One announcement leaves count, delay list, timer lists, ready lists, waiter lists, priorities and
      quantum exactly as n single ticks would, for any n up to the expected idle; the single ticks have
      pended a switch at least when the announcement has. */
  lemma {:induction false} AnnounceRefinesTicks(s: System, n: nat)
    requires Ready(s) && 1 <= n <= ExpectedIdle(s)
    ensures SameButPend(Announce(s, n), Handlers(s, n))
    decreases n
  {
    hide Reschedule, ExpectedIdle, Ready, Advance;
    if n == 1 {
      assert Handlers(s, 1) == Handlers(Handler(s), 0);
    } else {
      var s1 := Advance(s, 1);
      HandlerReady(s);
      AdvancesCompose(s, 1, n - 1) by { IdleLong(s, n); }
      AdvancePended(s1, n - 1);
      AnnounceRefinesTicks(Handler(s), n - 1);
      PendAgain(Advance(s1, n - 1), Reschedule(s1.k, s1.slice));
      assert Handlers(s, n) == Handlers(Handler(s), n - 1);
      SameButPendTwice(Announce(s, n), Announce(Handler(s), n - 1), Handlers(s, n));
    }
  }

  lemma IdleLong(s: System, n: nat)
    requires Ready(s) && 1 < n <= ExpectedIdle(s)
    ensures 1 < ExpectedIdle(s)
  {
  }

  predicate Idling(s: System) { s.k.current == Some(IDLE) && s.k.lockCount == 0 }

  /** While idle, a reschedule is possible only if a switch is pending already. */
  lemma IdleHasAsked(s: System)
    requires Ready(s) && Idling(s) && Reschedule(s.k, s.slice)
    ensures s.k.pendSv
  {
    BitsBounded(s.k);
    assert IDLE !in s.k.tcb;
    assert T(s.k, IDLE).prio == 0;
    assert Above(s.k.bitmap, 0);
    assert Outranked(s.k);
  }

  lemma IdleHandlerIsAdvance(s: System)
    requires Ready(s) && Idling(s) && 1 < ExpectedIdle(s)
    ensures Handler(s) == Advance(s, 1) && Idling(Handler(s))
  {
    QuietAdvance(s, 1);
    HandlerReady(s);
    var s1 := Advance(s, 1);
    hide Ready, Reschedule, ExpectedIdle;
    if Reschedule(s1.k, s1.slice) { IdleHasAsked(s1); }
  }

  /** From the idle loop, where windows are opened, the two agree in every component. */
  lemma {:induction false} IdleAnnounceIsTicks(s: System, n: nat)
    requires Ready(s) && Idling(s) && 1 <= n <= ExpectedIdle(s)
    ensures Announce(s, n) == Handlers(s, n)
    decreases n
  {
    hide Reschedule, ExpectedIdle, Ready, Advance, Idling;
    if n == 1 {
      assert Handlers(s, 1) == Handlers(Handler(s), 0);
    } else {
      IdleLong(s, n);
      HandlerReady(s);
      IdleHandlerIsAdvance(s);
      AdvancesCompose(s, 1, n - 1);
      IdleAnnounceIsTicks(Handler(s), n - 1);
      assert Handlers(s, n) == Handlers(Handler(s), n - 1);
    }
  }

  // ---------- planning a window ----------

  function Min(a: nat, b: nat): nat { if a < b then a else b }

  /** The window the idle loop plans: the expected idle under the port's ceiling (0: cannot suppress) and
      the kernel's own. */
  function Planned(s: System, ceiling: nat): nat {
    Min(if ceiling != 0 then Min(ExpectedIdle(s), ceiling) else ExpectedIdle(s), MAX_IDLE)
  }

  /** What os_arch_elapsed_ticks_get reports of a window: never more than it was planned for, and nothing
      for a window that could not be armed. */
  function Elapsed(planned: nat, ceiling: nat, measured: nat): nat {
    if planned >= 2 && ceiling != 0 then Min(measured, planned) else 0
  }

  /** A window opened from the idle loop never passes a deadline, whatever the wake source measures - and
      what it announces is exactly what single ticks would have done. */
  lemma WindowsAreSafe(s: System, ceiling: nat, measured: nat)
    requires Ready(s) && Idling(s)
    ensures var e := Elapsed(Planned(s, ceiling), ceiling, measured);
            && e <= ExpectedIdle(s) && e <= MAX_IDLE
            && (e > 0 ==> Announce(s, e) == Handlers(s, e))
  {
    hide Ready, Idling, ExpectedIdle, Advance, Announce, Handlers;
    var e := Elapsed(Planned(s, ceiling), ceiling, measured);
    ElapsedFits(s, ceiling, measured);
    if e > 0 { IdleAnnounceIsTicks(s, e); }
  }

  /** Nor does a window turn the clock back: the 32-bit count moves on by exactly what was announced. */
  lemma WindowsMoveTheClockForward(s: System, ceiling: nat, measured: nat)
    requires s.count < TWO32
    ensures var e := Elapsed(Planned(s, ceiling), ceiling, measured);
            (CountAfter(s.count, e) + TWO32 - s.count) % TWO32 == e
  {
    hide ExpectedIdle, Elapsed, Planned;
    ElapsedFits(s, ceiling, measured);
    Forward(s.count, Elapsed(Planned(s, ceiling), ceiling, measured));
  }

  lemma ElapsedFits(s: System, ceiling: nat, measured: nat)
    ensures var e := Elapsed(Planned(s, ceiling), ceiling, measured); e <= ExpectedIdle(s) && e <= MAX_IDLE < TWO32
  {
    hide ExpectedIdle;
  }

  /** A jump of less than the counter's range reads back as that jump. */
  lemma Forward(count: nat, e: nat)
    requires count < TWO32 && e < TWO32
    ensures (CountAfter(count, e) + TWO32 - count) % TWO32 == e
  {
    if count + e < TWO32 {
      assert (count + e) % TWO32 == count + e;
      assert (e + TWO32) % TWO32 == e;
    } else {
      assert (count + e) % TWO32 == count + e - TWO32;
      assert e % TWO32 == e;
    }
  }

  /** The deadlines the plan reads are the earliest there are. */
  lemma ExpectedIdleBoundsEveryDeadline(s: System, d: DeltaList.Due)
    requires d in DeltaList.Timeline(s.k.delay, 0) || d in DeltaList.Timeline(s.tm.running, 0)
    ensures ExpectedIdle(s) <= d.when
  {
    if s.k.delay != [] { DeltaList.HeadIsEarliest(s.k.delay, 0); }
    if s.tm.running != [] { DeltaList.HeadIsEarliest(s.tm.running, 0); }
  }

  /** And it is no earlier than need be: with nothing queued, the plan is the deadline of some sleeper or timer, or
      there is none at all. */
  lemma ExpectedIdleIsSomeDeadline(s: System)
    requires DeltaList.InRange(s.k.delay) && DeltaList.InRange(s.tm.running)
    ensures s.tm.ready != [] ==> ExpectedIdle(s) == 0
    ensures s.tm.ready == [] && (s.k.delay != [] || s.tm.running != []) ==>
      exists d :: (d in DeltaList.Timeline(s.k.delay, 0) || d in DeltaList.Timeline(s.tm.running, 0)) && d.when == ExpectedIdle(s)
    ensures s.tm.ready == [] && s.k.delay == [] && s.tm.running == [] ==> ExpectedIdle(s) == DeltaList.WAIT_FOREVER
  {
    if s.k.delay != [] { HeadDeadline(s.k.delay); }
    if s.tm.running != [] { HeadDeadline(s.tm.running); }
    hide DeltaList.Timeline;
  }

  lemma HeadDeadline(l: seq<DeltaList.Entry>)
    requires l != [] && DeltaList.InRange(l)
    ensures DeltaList.Due(l[0].id, l[0].delta) in DeltaList.Timeline(l, 0) && l[0].delta < DeltaList.WAIT_FOREVER
  {
    assert DeltaList.Timeline(l, 0)[0] == DeltaList.Due(l[0].id, l[0].delta);
  }

  /** What is announced is what was measured, unless that is more than was planned; a window that was never armed
      announces nothing. */
  lemma ElapsedIsMeasured(s: System, ceiling: nat, measured: nat)
    ensures var planned := Planned(s, ceiling); var e := Elapsed(planned, ceiling, measured); var armed := planned >= 2 && ceiling != 0;
            && (armed && measured <= planned ==> e == measured) && (armed && measured > planned ==> e == planned) && (!armed ==> e == 0)
    ensures var p := Planned(s, ceiling);
            && p <= ExpectedIdle(s) && p <= MAX_IDLE && (ceiling != 0 ==> p <= ceiling)
            && (p == ExpectedIdle(s) || p == MAX_IDLE || (p == ceiling && ceiling != 0))
  {
    hide ExpectedIdle;
  }
}
