/** The 32-bit words of the timers over whole runs: with finite periods and pool delays no countdown, share
    or remainder ever reads as OS_WAIT_FOREVER, and no sum wraps. */
module TimerRanges {
  import opened Sequences
  import opened DeltaList
  import opened Timers
  import opened TimerRuns

  predicate FiniteTimer(r: Timer) { r.period <= LONGEST_WAIT && r.remaining <= LONGEST_WAIT }

  ghost predicate FiniteTimers(tm: map<TimerId, Timer>) { forall t :: FiniteTimer(At(tm, t)) }

  ghost predicate FinitePools(ps: map<PoolId, Pool>) { forall p :: PoolAt(ps, p).delay <= LONGEST_WAIT }

  ghost predicate Finite(s: TimerState) { FiniteTimers(s.timers) && FinitePools(s.pools) && InRange(s.running) }

  lemma FiniteRewritten(tm: map<TimerId, Timer>, t: TimerId, r: Timer)
    requires FiniteTimers(tm) && FiniteTimer(r)
    ensures FiniteTimers(tm[t := r])
  {
    var tm' := tm[t := r];
    forall x ensures FiniteTimer(At(tm', x)) { assert FiniteTimer(At(tm, x)); }
  }

  /** A timer leaves the running list with what is left of its countdown. */
  lemma LeavesFinite(l: seq<Entry>, t: TimerId)
    requires InRange(l)
    ensures InRange(Remove(l, t)) && TicksLeft(l, t) <= LONGEST_WAIT
  {
    RangeKept(l, t, 0);
    TicksLeftInSpan(l, t);
  }

  lemma ArmFinite(s: TimerState, t: TimerId, reload: bool, context: nat, value: nat)
    requires Finite(s)
    ensures Finite(Arm(s, t, reload, context, value).0)
  {
    if Arm(s, t, reload, context, value).1 == Ok {
      var r := s.timers[t];
      assert FiniteTimer(At(s.timers, t));
      var left := if reload || !r.paused then r.period else r.remaining;
      hide FiniteTimers, FinitePools, InRange, Insert, Remove, Without;
      LeavesFinite(s.running, t);
      RangeKept(Remove(s.running, t), t, left);
      FiniteRewritten(s.timers, t, Arm(s, t, reload, context, value).0.timers[t]);
    }
  }

  lemma StopFinite(s: TimerState, t: TimerId)
    requires Finite(s)
    ensures Finite(Pause(s, t).0) && Finite(Stop(s, t).0)
  {
    if Valid(s, t) {
      assert FiniteTimer(At(s.timers, t));
      hide FiniteTimers, FinitePools, InRange, Remove, Without, TicksLeft, Ids;
      LeavesFinite(s.running, t);
      FiniteRewritten(s.timers, t, Stop(s, t).0.timers[t]);
      FiniteRewritten(s.timers, t, Pause(s, t).0.timers[t]);
    }
  }

  lemma SubmitFinite(s: TimerState, p: PoolId, context: nat, value: nat)
    requires Finite(s)
    ensures Finite(SubmitCall(s, p, context, value).0)
  {
    if SubmitCall(s, p, context, value).1 == Ok {
      var e := s.pools[p].free[0];
      var s' := SubmitCall(s, p, context, value).0;
      assert FiniteTimer(At(s.timers, e)) && PoolAt(s.pools, p).delay <= LONGEST_WAIT;
      assert forall q :: PoolAt(s'.pools, q).delay == PoolAt(s.pools, q).delay;
      hide FiniteTimers, InRange, Insert;
      RangeKept(s.running, e, s.pools[p].delay);
      FiniteRewritten(s.timers, e, s'.timers[e]);
    }
  }

  lemma ExpireFinite(s: TimerState, t: TimerId)
    requires Finite(s)
    ensures Finite(Expire(s, t))
  {
    assert FiniteTimer(At(s.timers, t));
    hide FiniteTimers, FinitePools, InRange, Insert;
    RangeKept(s.running, t, At(s.timers, t).period);
    FiniteRewritten(s.timers, t, Expire(s, t).timers[t]);
  }

  lemma {:induction false} ExpireEachFinite(s: TimerState, due: seq<TimerId>)
    requires Finite(s)
    ensures Finite(ExpireEach(s, due))
    decreases |due|
  {
    hide Finite, Expire;
    if due != [] {
      ExpireFinite(s, due[0]);
      ExpireEachFinite(Expire(s, due[0]), due[1..]);
    }
  }

  lemma TickFinite(s: TimerState, ticks: nat)
    requires Finite(s)
    ensures Finite(Tick(s, ticks))
  {
    hide FiniteTimers, FinitePools, InRange, ExpireEach, Expired, Remaining;
    if ticks != 0 {
      RangeKept(s.running, 0, ticks);
      ExpireEachFinite(s.(running := Remaining(s.running, ticks)), Expired(s.running, ticks));
    }
  }

  lemma FetchFinite(s: TimerState)
    requires Finite(s)
    ensures Finite(Fetch(s).0)
  {
    if s.ready != [] {
      var t := s.ready[0];
      assert FiniteTimer(At(s.timers, t));
      FetchShape(s);
      if At(s.timers, t).mode.Submit? { FreeGrows(s.pools, At(s.timers, t).mode.pool, t); }
      var s' := Fetch(s).0;
      assert s'.running == s.running || s'.running == Remove(s.running, t);
      hide FiniteTimers, InRange, Remove, Fetch;
      LeavesFinite(s.running, t);
      FiniteRewritten(s.timers, t, s'.timers[t]);
    }
  }

  /** Over any run: every share and every remainder is a finite 32-bit wait, so NextExpiry is the sentinel
      exactly when nothing is due, and every list walk on wrapping words is the one on numbers. */
  lemma {:induction false} EveryReachableCountdownIsFinite(s: TimerState, steps: seq<Step>)
    requires Finite(s)
    ensures Finite(AfterAll(s, steps))
    ensures var s' := AfterAll(s, steps); NextExpiry(s') == WAIT_FOREVER <==> s'.ready == [] && s'.running == []
    ensures var l := AfterAll(s, steps).running;
            forall t, n: nat :: n < DeltaList.WORD ==> SameOnWords(l, t, n) && TicksLeft(l, t) < WAIT_FOREVER
    decreases |steps|
  {
    if steps == [] {
      NoWordIsForever(s.running, 0);
      hide SameOnWords, TicksLeft;
      forall t, n: nat | n < DeltaList.WORD ensures SameOnWords(s.running, t, n) && TicksLeft(s.running, t) < WAIT_FOREVER {
        WordsAreExact(s.running, t, n);
        NoWordIsForever(s.running, t);
      }
    } else {
      hide Finite, After, NextExpiry, SameOnWords, TicksLeft;
      StepFinite(s, steps[0]);
      EveryReachableCountdownIsFinite(After(s, steps[0]), steps[1..]);
    }
  }

  lemma StepFinite(s: TimerState, a: Step)
    requires Finite(s)
    ensures Finite(After(s, a))
  {
    hide Finite, Arm, Pause, Stop, SubmitCall, Tick, Fetch;
    match a
    case Start(t, reload, context, value) => ArmFinite(s, t, reload, context, value);
    case Halt(t) => StopFinite(s, t);
    case End(t) => StopFinite(s, t);
    case Defer(p, context, value) => SubmitFinite(s, p, context, value);
    case Pass(ticks) => TickFinite(s, ticks);
    case Deliver => FetchFinite(s);
  }
}
