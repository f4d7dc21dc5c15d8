/** The timer module in place (os_timer.c): the running list, delivery queue, timers and pools as fields,
    updated by its loops. Every method leaves the state its function in module Timers describes. */
module TimerObject {
  import opened Sequences
  import opened DeltaList
  import opened Timers
  import opened TimerOutcomes

  // ---------- the two phases of a tick ----------

  /** Phase one takes one more due timer off the list. */
  lemma DetachOne(l: seq<Entry>, left: nat)
    requires l != [] && l[0].delta <= left
    ensures Expired(l, left) == [l[0].id] + Expired(l[1..], left - l[0].delta)
    ensures Remaining(l, left) == Remaining(l[1..], left - l[0].delta)
  {
  }

  lemma DetachEnds(l: seq<Entry>, left: nat)
    requires l == [] || l[0].delta > left
    ensures Expired(l, left) == []
    ensures Remaining(l, left) == if l == [] then [] else [Entry(l[0].id, l[0].delta - left)] + l[1..]
  {
  }

  /** Phase two deals with one of them. */
  lemma ExpireOne(s: TimerState, due: seq<TimerId>)
    requires due != []
    ensures ExpireEach(s, due) == ExpireEach(Expire(s, due[0]), due[1..])
    ensures AnyUnqueued(s, due) <==> !At(s.timers, due[0]).queued || AnyUnqueued(Expire(s, due[0]), due[1..])
  {
    var s1 := Expire(s, due[0]);
    assert forall t :: t in due <==> t == due[0] || t in due[1..];
    assert forall t :: t != due[0] ==> At(s1.timers, t) == At(s.timers, t);
    assert At(s1.timers, due[0]).queued;
    hide ExpireEach, Expire;
    if At(s.timers, due[0]).queued {
      if AnyUnqueued(s, due) {
        var t :| t in due && !At(s.timers, t).queued;
        assert t in due[1..] && !At(s1.timers, t).queued;
      }
      if AnyUnqueued(s1, due[1..]) {
        var t :| t in due[1..] && !At(s1.timers, t).queued;
        assert t in due && !At(s.timers, t).queued;
      }
    } else {
      assert due[0] in due;
    }
  }

  class TimerService {
    var timers: map<TimerId, Timer>
    var pools: map<PoolId, Pool>
    var running: seq<Entry>
    var ready: seq<TimerId>

    function View(): TimerState
      reads this
    {
      TimerState(timers, pools, running, ready)
    }

    constructor (objects: map<TimerId, Timer>, submitPools: map<PoolId, Pool>)
      ensures View() == TimerState(objects, submitPools, [], [])
    {
      timers, pools, running, ready := objects, submitPools, [], [];
    }

    /** os_timer_arm. */
    method ArmTimer(t: TimerId, reload: bool, context: nat, value: nat) returns (status: Status)
      modifies this
      ensures (View(), status) == Arm(old(View()), t, reload, context, value)
      ensures Sound(old(View())) && status == Ok ==>
        DueIn(View(), t, if reload || !old(At(timers, t)).paused then old(At(timers, t)).period else old(At(timers, t)).remaining)
    {
      if Sound(View()) { ArmOutcome(View(), t, reload, context, value); }
      if t !in timers || timers[t].mode.Submit? || !timers[t].hasCallback || timers[t].period == 0 {
        return InvalidArg;
      }
      var r := timers[t];
      var rest, _, _ := RemoveWalk(running, t);
      running := rest;
      var left := r.remaining;
      var queued := r.queued;
      if reload || !r.paused {
        left := r.period;
        if queued {
          ready := Without(ready, t);
          queued := false;
        }
      }
      timers := timers[t := r.(context := context, value := value, remaining := left, active := true, paused := false, queued := queued)];
      rest := InsertWalk(running, t, left);
      running := rest;
      status := Ok;
    }

    /** os_timer_pause. */
    method PauseTimer(t: TimerId) returns (status: Status)
      modifies this
      ensures (View(), status) == Pause(old(View()), t)
      ensures Sound(old(View())) && status == Ok && old(At(timers, t)).active ==> HeldAt(View(), t, TicksLeft(old(running), t))
    {
      if Sound(View()) { PauseOutcome(View(), t); }
      if t !in timers || timers[t].mode.Submit? { return InvalidArg; }
      if timers[t].active {
        var rest, _, left := RemoveWalk(running, t);
        running := rest;
        timers := timers[t := timers[t].(active := false, paused := true, remaining := left)];
        status := Ok;
      } else {
        status := if timers[t].paused then Ok else NotRunning;
      }
    }

    /** os_timer_stop: any expiry not yet delivered is dropped with it. */
    method StopTimer(t: TimerId) returns (status: Status)
      modifies this
      ensures (View(), status) == Stop(old(View()), t)
      ensures Sound(old(View())) && status == Ok ==> Silent(View(), t) && Apart(old(View()), View(), t)
    {
      if Sound(View()) { StopOutcome(View(), t); }
      if t !in timers || timers[t].mode.Submit? { return InvalidArg; }
      var r := timers[t];
      var rest, found, left := RemoveWalk(running, t);
      running := rest;
      timers := timers[t := r.(active := false, paused := false, queued := false, remaining := if found then left else r.remaining)];
      ready := Without(ready, t);
      status := Ok;
    }

    /** os_timer_submit on a threaded pool. */
    method Submit(p: PoolId, context: nat, value: nat) returns (status: Status, wake: bool)
      modifies this
      ensures (View(), status, wake) == SubmitCall(old(View()), p, context, value)
    {
      if p !in pools || pools[p].count == 0 { return InvalidArg, false; }
      if pools[p].free == [] { return Status.Full, false; }
      var pool := pools[p];
      var e := pool.free[0];
      pools := pools[p := pool.(free := pool.free[1..])];
      var r := (if e in timers then timers[e] else BLANK).(context := context, value := value, paused := false);
      if pool.delay == 0 {
        timers := timers[e := r.(active := false, remaining := 0, queued := true)];
        ready := ready + [e];
        wake := true;
      } else {
        timers := timers[e := r.(active := true, remaining := pool.delay)];
        running := InsertWalk(running, e, pool.delay);
        wake := false;
      }
      status := Ok;
    }

    /** Phase one of os_timer_tick_process: the due prefix is detached, and only the first timer left is
        told how much time passed. */
    method DetachDue(ticks: nat) returns (due: seq<TimerId>)
      modifies this`running
      ensures due == Expired(old(running), ticks) && running == Remaining(old(running), ticks)
    {
      hide Expired, Remaining;
      var left: nat := ticks;
      due := [];
      while running != [] && running[0].delta <= left
        invariant Expired(old(running), ticks) == due + Expired(running, left)
        invariant Remaining(old(running), ticks) == Remaining(running, left)
        decreases |running|
      {
        DetachOne(running, left);
        left := left - running[0].delta;
        due := due + [running[0].id];
        running := running[1..];
      }
      DetachEnds(running, left);
      if running != [] {
        running := [Entry(running[0].id, running[0].delta - left)] + running[1..];
      }
    }

    /** One turn of phase two. */
    method ExpireTimer(t: TimerId) returns (wake: bool)
      modifies this
      ensures View() == Expire(old(View()), t) && wake == !At(old(timers), t).queued
    {
      var r := if t in timers then timers[t] else BLANK;
      wake := !r.queued;
      if r.mode == Periodic {
        var l := InsertWalk(running, t, r.period);
        running := l;
        timers := timers[t := r.(remaining := r.period, queued := true)];
      } else {
        timers := timers[t := r.(remaining := 0, active := false, queued := true)];
      }
      if wake { ready := ready + [t]; }
    }

    /** os_timer_tick_process; the flag says whether the timer task is woken. */
    method TickProcess(ticks: nat) returns (wake: bool)
      modifies this
      ensures View() == Tick(old(View()), ticks) && wake == TickWakes(old(View()), ticks)
    {
      wake := false;
      if ticks == 0 { return; }
      ghost var s := View();
      var due := DetachDue(ticks);
      DueBefore(s, View(), due);
      ghost var s1 := View();
      assert Tick(s, ticks) == ExpireEach(s1, due);
      hide ExpireEach, Expire, AnyUnqueued;
      ghost var all := due;
      while due != []
        invariant ExpireEach(View(), due) == ExpireEach(s1, all)
        invariant (wake || AnyUnqueued(View(), due)) == AnyUnqueued(s1, all)
        decreases |due|
      {
        ExpireOne(View(), due);
        var fresh' := ExpireTimer(due[0]);
        wake := wake || fresh';
        due := due[1..];
      }
      NoneLeft(View());
    }

    /** os_timer_expired_fetch. */
    method ExpiredFetch() returns (call: Option<Call>)
      modifies this
      ensures (View(), call) == Fetch(old(View()))
    {
      if ready == [] { return None; }
      var t := ready[0];
      ready := ready[1..];
      var r := if t in timers then timers[t] else BLANK;
      call := Some(Call(r.context, r.value));
      var delivered := r.(queued := false);
      if !r.active && !r.paused {
        var rest, _, _ := RemoveWalk(running, t);
        running := rest;
        if r.mode.Submit? {
          var p := r.mode.pool;
          delivered := delivered.(context := 0, value := 0);
          var pool := if p in pools then pools[p] else Pool(0, 0, []);
          pools := pools[p := pool.(free := pool.free + [t])];
        }
      }
      timers := timers[t := delivered];
    }

    /** os_timer_next_expiry_ticks_get: one read, because the list is in expiry order. */
    method NextExpiryTicks() returns (ticks: nat)
      ensures ticks == NextExpiry(View())
    {
      if ready != [] { ticks := 0; }
      else if running != [] { ticks := running[0].delta; }
      else { ticks := WAIT_FOREVER; }
    }
  }

  /** Detaching touches no flag. */
  lemma DueBefore(s: TimerState, s1: TimerState, due: seq<TimerId>)
    requires s1.timers == s.timers
    ensures AnyUnqueued(s1, due) == AnyUnqueued(s, due)
  {
  }

  lemma NoneLeft(s: TimerState)
    ensures ExpireEach(s, []) == s && !AnyUnqueued(s, [])
  {
  }
}
