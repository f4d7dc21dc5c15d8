/** What one tick, or one announcement of several, does to everybody: sleepers, the timer task, timers, the count
    and the quantum. */
module TickOutcomes {
  import opened Sequences
  import opened Kernel
  import opened Links
  import opened Operations
  import opened Scheduling
  import opened Preemption
  import opened Waking
  import opened NoLostWakeups
  import opened Timeouts
  import opened Runs
  import opened Outcomes
  import opened TaskOutcomes
  import Tickless
  import TM = Timers
  import TimerOutcomes
  import DeltaList

  /** The kernel once the timer task has been told. */
  function Told(s: Tickless.System, n: nat): State { if TM.TickWakes(s.tm, n) then WakeBlocked(s.k, s.timerTask) else s.k }

  lemma ToldIs(s: Tickless.System, n: nat)
    requires Tickless.Ready(s)
    ensures Safe(Told(s, n)) && Told(s, n).delay == s.k.delay && Tickless.Advance(s, n).k == TickUpdate(Told(s, n), n)
    ensures TM.TickWakes(s.tm, n) && T(s.k, s.timerTask).state == Blocked ==>
            T(Told(s, n), s.timerTask).state == Ready && T(Told(s, n), s.timerTask).signaled
    ensures forall t: Task :: t != s.timerTask || !TM.TickWakes(s.tm, n) || T(s.k, t).state != Blocked ==>
            T(Told(s, n), t) == T(s.k, t).(prio := T(Told(s, n), t).prio)
  {
    var wake := TM.TickWakes(s.tm, n);
    assert !(T(s.k, s.timerTask).state == Blocked && T(s.k, s.timerTask).timed) && Safe(s.k);
    SafeFacts(s.k);
    hide Safe, Linked, WakeBlocked, TickUpdate, TM.TickWakes, MadeReadyLast, Unlisted;
    Tickless.WokenSafe(s, wake);
    WakeOutcome(s.k, s.timerTask);
    WakeKeepsDelay(s.k, s.timerTask);
    WokenIsReady(s.k, s.timerTask);
  }

  lemma WokenIsReady(k: State, t: Task)
    ensures MadeReadyLast(WakeBlocked(k, t), t) ==> T(WakeBlocked(k, t), t).state == Ready
  {
    hide WakeBlocked;
  }

  lemma WakeKeepsDelay(k: State, t: Task)
    requires Linked(k) && !(T(k, t).state == Blocked && T(k, t).timed)
    ensures WakeBlocked(k, t).delay == k.delay
  {
    hide Linked, Unlink;
    if Live(k, t) && T(k, t).state == Blocked {
      ResumeDelay(Unlink(k, t), t, T(Unlink(k, t), t).(signaled := true));
      UnlinkDelay(k, t);
      LeaveDelay(k, t);
    }
  }

  /** A timed sleeper due within these ticks. */
  predicate DueBy(k: State, t: Task, n: nat) { Sleeping(T(k, t)) && DeltaList.TicksLeft(k.delay, t) <= n }

  /** os_tick_handler and os_tick_announce before their reschedule test, for every task: a sleeper due by then is ready
      and unlisted, any other has that many ticks fewer to go; the timer task, if it sleeps, is made ready with a
      signal exactly when a timer's delivery was newly queued; everybody else is as before but for priorities. */
  lemma AdvanceOutcome(s: Tickless.System, n: nat, t: Task)
    requires Tickless.Ready(s) && n > 0
    ensures var k, k' := s.k, Tickless.Advance(s, n).k; var told := TM.TickWakes(s.tm, n) && t == s.timerTask && T(k, t).state == Blocked;
            if DueBy(k, t, n) then RanOut(k, k', t) && t !in DeltaList.Ids(k'.delay)
            else if told then T(k', t).state == Ready && T(k', t).signaled
            else T(k', t) == T(k, t).(prio := T(k', t).prio)
                 && (Sleeping(T(k, t)) ==> DeltaList.TicksLeft(k'.delay, t) == DeltaList.TicksLeft(k.delay, t) - n)
  {
    hide *;
    ToldIs(s, n);
    TickOutcome(Told(s, n), n, t);
    SleepersUntold(s, n, t);
    SleepsAlike(s.k, Told(s, n), t);
    ThroughTold(s.k, Told(s, n), Tickless.Advance(s, n).k, t, n);
  }

  /** The timer task never sleeps for a time, so telling it ends nobody's timed wait. */
  lemma SleepersUntold(s: Tickless.System, n: nat, t: Task)
    requires Tickless.Ready(s)
    ensures Sleeping(T(s.k, t)) ==> t != s.timerTask && T(s.k, t).state == Blocked
    ensures Tickless.Ready(s) && t == s.timerTask && T(s.k, t).state == Blocked ==> !Sleeping(T(s.k, t))
  {
    hide Safe;
  }

  lemma SleepsAlike(k: State, w: State, t: Task)
    ensures T(w, t) == T(k, t).(prio := T(w, t).prio) ==> Sleeping(T(w, t)) == Sleeping(T(k, t))
    ensures T(w, t).state == Ready ==> !Sleeping(T(w, t))
  {
  }

  lemma ThroughTold(k: State, w: State, k': State, t: Task, n: nat)
    requires w.delay == k.delay
    ensures DueBy(k, t, n) <==> Sleeping(T(k, t)) && DeltaList.TicksLeft(k.delay, t) <= n
    ensures T(w, t) == T(k, t).(prio := T(w, t).prio) && RanOut(w, k', t) ==> RanOut(k, k', t)
    ensures T(w, t) == T(k, t).(prio := T(w, t).prio) && T(k', t) == T(w, t).(prio := T(k', t).prio) ==> T(k', t) == T(k, t).(prio := T(k', t).prio)
    ensures T(k', t) == T(w, t).(prio := T(k', t).prio) ==> T(k', t).state == T(w, t).state && T(k', t).signaled == T(w, t).signaled
  {
    hide DeltaList.TicksLeft;
  }

  /** The clock, the timers and the quantum move by exactly what is announced. */
  lemma ClockOutcome(s: Tickless.System, n: nat, x: TM.TimerId)
    requires Tickless.Ready(s) && TM.Sound(s.tm) && n > 0
    ensures var s' := Tickless.Advance(s, n);
            && (s'.count + Tickless.TWO32 - s.count) % Tickless.TWO32 == n % Tickless.TWO32 && s'.slice == (if s.slice <= n then 0 else s.slice - n)
            && (if TM.At(s.tm.timers, x).active && DeltaList.TicksLeft(s.tm.running, x) <= n then TimerOutcomes.Fired(s.tm, s'.tm, x)
                else TM.At(s'.tm.timers, x) == TM.At(s.tm.timers, x)
                     && (TM.At(s.tm.timers, x).active ==> TimerOutcomes.DueIn(s'.tm, x, DeltaList.TicksLeft(s.tm.running, x) - n)))
            && (TM.TickWakes(s.tm, n) <==> s'.tm.ready != s.tm.ready)
  {
    hide *;
    AdvanceParts(s, n);
    CountMoves(s, n);
    TimerOutcomes.TickOutcome(s.tm, n, x);
    TimerOutcomes.TickQueues(s.tm, n);
  }

  lemma AdvanceParts(s: Tickless.System, n: nat)
    ensures var s' := Tickless.Advance(s, n);
            s'.tm == TM.Tick(s.tm, n) && s'.count == (s.count + n) % Tickless.TWO32 && s'.slice == (if s.slice <= n then 0 else s.slice - n)
  {
    hide TM.Tick, Tickless.KernelAfter;
  }

  lemma CountMoves(s: Tickless.System, n: nat)
    requires Tickless.Ready(s)
    ensures ((s.count + n) % Tickless.TWO32 + Tickless.TWO32 - s.count) % Tickless.TWO32 == n % Tickless.TWO32
  {
    assert s.count < Tickless.TWO32;
    hide *;
    WholeTurns(s.count, n);
    Tickless.Forward(s.count, n % Tickless.TWO32);
    CountIs(s.count, n % Tickless.TWO32);
  }

  lemma WholeTurns(count: nat, n: nat)
    ensures (count + n) % Tickless.TWO32 == (count + n % Tickless.TWO32) % Tickless.TWO32
    ensures n % Tickless.TWO32 < Tickless.TWO32
  {
  }

  lemma CountIs(count: nat, e: nat)
    ensures Tickless.CountAfter(count, e) == (count + e) % Tickless.TWO32
  {
  }
}
