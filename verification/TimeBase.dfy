/** The time base in place (os_tick.c, os_arch_tickless.c): the tick handler, the bulk announcement and the
    tickless idle pass, as methods on a kernel object and a timer object. */
module TimeBaseObject {
  import opened Kernel
  import opened Links
  import opened Timeouts
  import opened Tickless
  import opened KernelObject
  import opened TimerObject
  import TM = Timers
  import DeltaList
  import Runs

  /** Waking the timer task keeps what the tick's walk relies on. */
  lemma WakeKeepsLists(k: State, t: Task)
    requires Runs.Safe(k)
    ensures Linked(k) && Delayed(k) && Linked(WakeBlocked(k, t)) && Delayed(WakeBlocked(k, t))
  {
    assert Runs.Enabled(k, Runs.Wake(t));
    Runs.StepIsSafe(k, Runs.Wake(t));
    SafeMeans(k);
    SafeMeans(Runs.Apply(k, Runs.Wake(t)));
  }

  lemma AdvanceIs(s: System, n: nat)
    ensures Advance(s, n)
         == System(TickUpdate(if TM.TickWakes(s.tm, n) then WakeBlocked(s.k, s.timerTask) else s.k, n), TM.Tick(s.tm, n),
                   CountAfter(s.count, n), SliceAfter(s.slice, n), s.timerTask)
  {
  }

  class TimeBase {
    const kernel: Scheduler
    const timers: TimerService
    const timerTask: Task
    var count: nat
    var slice: nat
    /** os_arch_tickless_planned: the window armed, 0 for none. */
    var planned: nat

    function View(): System
      reads this, kernel, timers
    {
      System(kernel.View(), timers.View(), count, slice, timerTask)
    }

    constructor (k: Scheduler, t: TimerService, service: Task, quantum: nat)
      ensures kernel == k && timers == t && timerTask == service && count == 0 && slice == quantum && planned == 0
    {
      kernel, timers, timerTask, count, slice, planned := k, t, service, 0, quantum, 0;
    }

    /** os_task_reschedule_possible. */
    method ReschedulePossible() returns (due: bool)
      ensures due == Reschedule(kernel.View(), slice)
    {
      if kernel.lockCount != 0 {
        due := false;
      } else if kernel.current.None? {
        due := kernel.bitmap != {};
      } else {
        var p := kernel.At(kernel.current.value).prio;
        due := exists b | b in kernel.bitmap :: b > p;
        if !due && slice == 0 { due := p in kernel.bitmap; }
      }
    }

    /** The count, the timers, the sleepers and the quantum, in the order of the source. */
    method TimePasses(n: nat)
      requires Runs.Safe(kernel.View())
      modifies this`count, this`slice, kernel, timers
      ensures View() == Advance(old(View()), n)
    {
      ghost var k, tm := kernel.View(), timers.View();
      var counted := (count + n) % TWO32;
      var left := if slice > n then slice - n else 0;
      assert counted == CountAfter(count, n) && left == SliceAfter(slice, n);
      WakeKeepsLists(k, timerTask);
      hide *;
      ViewIs();
      AdvanceIs(View(), n);
      count := counted;
      var wake := timers.TickProcess(n);
      if wake { kernel.Wake(timerTask); }
      kernel.TickUpdate(n);
      slice := left;
      ViewIs();
    }

    lemma ViewIs()
      ensures View() == System(kernel.View(), timers.View(), count, slice, timerTask)
    {
    }

    /** os_tick_handler, on the core that owns the time base. */
    method TickHandler()
      requires Runs.Safe(kernel.View())
      modifies this`count, this`slice, kernel, timers
      ensures View() == Handler(old(View()))
    {
      Announced(1);
    }

    /** os_tick_announce. */
    method Announced(n: nat)
      requires Runs.Safe(kernel.View())
      modifies this`count, this`slice, kernel, timers
      ensures View() == Announce(old(View()), n)
    {
      hide Advance, Reschedule, Runs.Safe;
      TimePasses(n);
      var due := ReschedulePossible();
      if due { kernel.pendSv := true; }
    }

    /** os_tickless_expected_idle_ticks_get. */
    method ExpectedIdleTicks() returns (idle: nat)
      ensures idle == ExpectedIdle(View())
    {
      idle := timers.NextExpiryTicks();
      var candidate := if kernel.delay == [] then DeltaList.WAIT_FOREVER else kernel.delay[0].delta;
      if candidate < idle { idle := candidate; }
    }

    /** os_arch_sleep_prepare: nothing is armed until it can be ended. */
    method SleepPrepare(ticks: nat, ceiling: nat)
      modifies this`planned
      ensures planned == if ticks >= 2 && ceiling != 0 then ticks else 0
    {
      planned := 0;
      if ticks >= 2 && ceiling != 0 { planned := ticks; }
    }

    /** os_arch_elapsed_ticks_get: a window is never reported longer than it was promised. */
    method ElapsedTicks(measured: nat) returns (elapsed: nat)
      modifies this`planned
      ensures planned == 0 && elapsed == if old(planned) == 0 then 0 else Min(measured, old(planned))
    {
      elapsed := 0;
      if planned != 0 {
        elapsed := measured;
        if elapsed > planned { elapsed := planned; }
        planned := 0;
      }
    }

    /** The idle pass of os_tickless_idle_process once it has decided to plan: the earliest deadline, under
        the port's ceiling and the kernel's, above both floors; sleep; announce what was measured. The result
        is exactly that of as many single ticks. */
    method IdlePass(ceiling: nat, portFloor: nat, floor: nat, measured: nat) returns (announced: nat)
      requires Tickless.Ready(View()) && Idling(View()) && floor >= 2
      modifies this`count, this`slice, this`planned, kernel, timers
      ensures var plan := Planned(old(View()), ceiling); var sleeps := ceiling != 0 && plan >= portFloor && plan >= floor;
              && announced == (if sleeps then Elapsed(plan, ceiling, measured) else 0)
              && (announced > 0 ==> View() == Handlers(old(View()), announced))
              && (announced == 0 ==> View() == if sleeps then Announce(old(View()), 0) else old(View()))
    {
      announced := 0;
      WindowsAreSafe(View(), ceiling, measured);
      hide Tickless.Ready, Announce, Handlers, ExpectedIdle;
      var idle := ExpectedIdleTicks();
      if ceiling != 0 && idle > ceiling { idle := ceiling; }
      if idle > MAX_IDLE { idle := MAX_IDLE; }
      assert idle == Planned(View(), ceiling);
      var least := portFloor;
      if least < floor { least := floor; }
      if ceiling != 0 && idle >= least {
        SleepPrepare(idle, ceiling);
        announced := ElapsedTicks(measured);
        Announced(announced);
      }
    }
  }
}
