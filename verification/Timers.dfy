/** Software timers and deferred calls (os_timer.c): the running list, the delivery queue, arm, pause and
    stop, the two-phase tick, and submit pools. */
module Timers {
  import opened Sequences
  import opened DeltaList

  type TimerId = nat
  type PoolId = nat

  datatype Mode = OneShot | Periodic | Submit(pool: PoolId)

  /** `remaining` is meaningful while the timer is out of the running list; inside it the share is kept
      in the list entry. */
  datatype Timer = Timer(mode: Mode, period: nat, hasCallback: bool, context: nat, value: nat,
                         remaining: nat, active: bool, paused: bool, queued: bool)

  const BLANK: Timer := Timer(OneShot, 0, false, 0, 0, 0, false, false, false)

  datatype Pool = Pool(delay: nat, count: nat, free: seq<TimerId>)

  datatype TimerState = TimerState(timers: map<TimerId, Timer>, pools: map<PoolId, Pool>,
                                   running: seq<Entry>, ready: seq<TimerId>)

  datatype Status = Ok | InvalidArg | NotRunning | Full

  /** What a delivery hands to the callback. */
  datatype Call = Call(context: nat, value: nat)

  function At(tm: map<TimerId, Timer>, t: TimerId): Timer { if t in tm then tm[t] else BLANK }
  function PoolAt(ps: map<PoolId, Pool>, p: PoolId): Pool { if p in ps then ps[p] else Pool(0, 0, []) }
  function Put(s: TimerState, t: TimerId, r: Timer): TimerState { s.(timers := s.timers[t := r]) }

  /** OS_TIMER_VALID: a defined timer that is no pool entry. */
  predicate Valid(s: TimerState, t: TimerId) { t in s.timers && !s.timers[t].mode.Submit? }

  // ---------- the operations ----------

  /** os_timer_arm, the body of start (reload false) and restart (reload true). */
  function Arm(s: TimerState, t: TimerId, reload: bool, context: nat, value: nat): (TimerState, Status) {
    if !Valid(s, t) || !s.timers[t].hasCallback || s.timers[t].period == 0 then (s, InvalidArg)
    else
      var r := s.timers[t];
      var anew := reload || !r.paused;
      var left := if anew then r.period else r.remaining;
      (s.(timers := s.timers[t := r.(context := context, value := value, remaining := left, active := true,
                                     paused := false, queued := r.queued && !anew)],
          running := Insert(Remove(s.running, t), t, left),
          ready := if anew && r.queued then Without(s.ready, t) else s.ready), Ok)
  }

  function Pause(s: TimerState, t: TimerId): (TimerState, Status) {
    if !Valid(s, t) then (s, InvalidArg)
    else if s.timers[t].active then
      (s.(timers := s.timers[t := s.timers[t].(active := false, paused := true, remaining := TicksLeft(s.running, t))],
          running := Remove(s.running, t)), Ok)
    else (s, if s.timers[t].paused then Ok else NotRunning)
  }

  function Stop(s: TimerState, t: TimerId): (TimerState, Status) {
    if !Valid(s, t) then (s, InvalidArg)
    else
      var r := s.timers[t];
      (s.(timers := s.timers[t := r.(active := false, paused := false, queued := false,
                                     remaining := if t in Ids(s.running) then TicksLeft(s.running, t) else r.remaining)],
          running := Remove(s.running, t), ready := Without(s.ready, t)), Ok)
  }

  /** os_timer_submit on a threaded pool; the flag asks for the timer task to be woken. */
  function SubmitCall(s: TimerState, p: PoolId, context: nat, value: nat): (TimerState, Status, bool) {
    if p !in s.pools || s.pools[p].count == 0 then (s, InvalidArg, false)
    else if s.pools[p].free == [] then (s, Full, false)
    else
      var pool := s.pools[p];
      var e := pool.free[0];
      var r := At(s.timers, e).(context := context, value := value, paused := false);
      var s1 := s.(pools := s.pools[p := pool.(free := pool.free[1..])]);
      if pool.delay == 0 then
        (s1.(timers := s.timers[e := r.(active := false, remaining := 0, queued := true)], ready := s.ready + [e]), Ok, true)
      else
        (s1.(timers := s.timers[e := r.(active := true, remaining := pool.delay)],
             running := Insert(s.running, e, pool.delay)), Ok, false)
  }

  /** One due timer: a periodic one re-arms a full period out, any other is finished; then it is queued
      unless it is waiting already. */
  function Expire(s: TimerState, t: TimerId): TimerState {
    var r := At(s.timers, t);
    var r1 := if r.mode == Periodic then r.(remaining := r.period) else r.(remaining := 0, active := false);
    s.(timers := s.timers[t := r1.(queued := true)],
       running := if r.mode == Periodic then Insert(s.running, t, r.period) else s.running,
       ready := if r.queued then s.ready else s.ready + [t])
  }

  function ExpireEach(s: TimerState, due: seq<TimerId>): TimerState
    decreases |due|
  {
    if due == [] then s else ExpireEach(Expire(s, due[0]), due[1..])
  }

  predicate AnyUnqueued(s: TimerState, due: seq<TimerId>) { exists t :: t in due && !At(s.timers, t).queued }

  /** os_timer_tick_process: detach the due prefix first, then deal with it, so that no timer fires twice
      in one window. */
  function Tick(s: TimerState, ticks: nat): TimerState {
    if ticks == 0 then s
    else ExpireEach(s.(running := Remaining(s.running, ticks)), Expired(s.running, ticks))
  }

  function TickWakes(s: TimerState, ticks: nat): bool { ticks != 0 && AnyUnqueued(s, Expired(s.running, ticks)) }

  /** os_timer_expired_fetch: take the oldest expiry; a finished entry goes back to its pool first. */
  function Fetch(s: TimerState): (TimerState, Option<Call>) {
    if s.ready == [] then (s, None)
    else
      var t := s.ready[0];
      var r := At(s.timers, t);
      var s1 := s.(ready := s.ready[1..]);
      var call := Some(Call(r.context, r.value));
      if r.active || r.paused then (Put(s1, t, r.(queued := false)), call)
      else
        var s2 := s1.(running := Remove(s.running, t));
        match r.mode
        case Submit(p) =>
          (Put(s2, t, r.(queued := false, context := 0, value := 0)).(
             pools := s.pools[p := PoolAt(s.pools, p).(free := PoolAt(s.pools, p).free + [t])]), call)
        case _ => (Put(s2, t, r.(queued := false)), call)
  }

  /** os_timer_next_expiry_ticks_get. */
  function NextExpiry(s: TimerState): nat {
    if s.ready != [] then 0 else if s.running == [] then WAIT_FOREVER else s.running[0].delta
  }

  // ---------- the invariant ----------

  /** Every entry of a pool that is counting down is due within the pool's own, nonzero, delay. */
  predicate Within(tm: map<TimerId, Timer>, ps: map<PoolId, Pool>, l: seq<Entry>, acc: nat)
    decreases |l|
  {
    l == [] || ((At(tm, l[0].id).mode.Submit? ==> InTime(PoolAt(ps, At(tm, l[0].id).mode.pool).delay, acc + l[0].delta))
                && Within(tm, ps, l[1..], acc + l[0].delta))
  }

  predicate InTime(delay: nat, due: nat) { 0 < delay && due <= delay }

  /** A timer is in the running list exactly while it is active - or off it for a moment, when due. */
  ghost predicate RunsOk(tm: map<TimerId, Timer>, running: seq<Entry>, due: multiset<TimerId>) {
    forall t :: multiset(Ids(running))[t] + due[t] == if At(tm, t).active then 1 else 0
  }

  /** It is in the delivery queue exactly while it is queued. */
  ghost predicate WaitsOk(tm: map<TimerId, Timer>, ready: seq<TimerId>) {
    forall t :: multiset(ready)[t] == if At(tm, t).queued then 1 else 0
  }

  /** A pool entry that is neither. */
  predicate Idle(r: Timer, p: PoolId) { r.mode == Submit(p) && !r.active && !r.queued }

  /** It is on its pool's free list exactly while it is idle. */
  ghost predicate FreedOk(tm: map<TimerId, Timer>, ps: map<PoolId, Pool>) {
    forall p, t :: multiset(PoolAt(ps, p).free)[t] == if Idle(At(tm, t), p) then 1 else 0
  }

  ghost predicate LivesOk(tm: map<TimerId, Timer>) { forall t :: LifeOk(At(tm, t)) }

  /** The flags and the lists are two views of one fact. */
  ghost predicate LinkedDue(s: TimerState, due: multiset<TimerId>) {
    RunsOk(s.timers, s.running, due) && WaitsOk(s.timers, s.ready) && FreedOk(s.timers, s.pools) && LivesOk(s.timers)
  }

  ghost predicate Linked(s: TimerState) { LinkedDue(s, multiset{}) }

  /** A paused timer does not run; a pool entry is never paused and never both counting and queued. */
  predicate LifeOk(r: Timer) {
    && (r.active ==> !r.paused)
    && (r.mode.Submit? ==> !r.paused && !(r.active && r.queued))
  }

  // ---------- a pool as a bounded queue of calls ----------

  /** The calls of pool p among these timers, in order. */
  function Calls(tm: map<TimerId, Timer>, p: PoolId, ids: seq<TimerId>): seq<Call>
    decreases |ids|
  {
    if ids == [] then []
    else (if At(tm, ids[0]).mode == Submit(p) then [Call(At(tm, ids[0]).context, At(tm, ids[0]).value)] else [])
         + Calls(tm, p, ids[1..])
  }

  /** The submissions of pool p not yet delivered, oldest first: those queued, then those counting down. */
  function InFlight(s: TimerState, p: PoolId): seq<Call> {
    Calls(s.timers, p, s.ready) + Calls(s.timers, p, Ids(s.running))
  }

  ghost predicate PoolsOk(s: TimerState) {
    && (forall p :: |PoolAt(s.pools, p).free| + |InFlight(s, p)| == PoolAt(s.pools, p).count)
    && (forall t :: At(s.timers, t).mode.Submit? ==> At(s.timers, t).mode.pool in s.pools)
  }

  ghost predicate Sound(s: TimerState) { Linked(s) && PoolsOk(s) && Within(s.timers, s.pools, s.running, 0) }

  // ---------- calls through list changes ----------

  lemma {:induction false} CallsJoin(tm: map<TimerId, Timer>, p: PoolId, a: seq<TimerId>, b: seq<TimerId>)
    ensures Calls(tm, p, a + b) == Calls(tm, p, a) + Calls(tm, p, b)
    decreases |a|
  {
    if a == [] {
      assert a + b == b;
    } else {
      assert (a + b)[0] == a[0] && (a + b)[1..] == a[1..] + b;
      CallsJoin(tm, p, a[1..], b);
    }
  }

  /** What pool p reads of a timer. */
  predicate SameCall(r: Timer, r': Timer, p: PoolId) {
    (r.mode == Submit(p) <==> r'.mode == Submit(p)) && (r.mode == Submit(p) ==> r.context == r'.context && r.value == r'.value)
  }

  lemma {:induction false} CallsSame(tm: map<TimerId, Timer>, tm': map<TimerId, Timer>, p: PoolId, ids: seq<TimerId>)
    requires forall t :: t in ids ==> SameCall(At(tm, t), At(tm', t), p)
    ensures Calls(tm', p, ids) == Calls(tm, p, ids)
    decreases |ids|
  {
    if ids != [] {
      assert ids[0] in ids;
      CallsSame(tm, tm', p, ids[1..]);
    }
  }

  /** A timer that is no entry of p comes and goes unnoticed. */
  lemma {:induction false} CallsWithout(tm: map<TimerId, Timer>, p: PoolId, ids: seq<TimerId>, t: TimerId)
    requires At(tm, t).mode != Submit(p)
    ensures Calls(tm, p, Without(ids, t)) == Calls(tm, p, ids)
    decreases |ids|
  {
    if ids != [] && ids[0] != t {
      CallsWithout(tm, p, ids[1..], t);
      assert Without(ids, t)[1..] == Without(ids[1..], t);
    }
  }

  lemma {:induction false} IdsInsert(l: seq<Entry>, t: TimerId, n: nat) returns (i: nat)
    ensures i <= |l| && Ids(Insert(l, t, n)) == Ids(l)[..i] + [t] + Ids(l)[i..]
    ensures Span(l[..i]) <= n && (i < |l| ==> Span(l[..i]) + l[i].delta > n)
    decreases |l|
  {
    if l == [] || l[0].delta > n {
      i := 0;
      if l != [] {
        var r := Insert(l, t, n);
        assert r[1..][1..] == l[1..];
        assert Ids(r) == [t] + Ids(l) by { assert Ids(r[1..]) == Ids(l); }
      }
    } else {
      var j := IdsInsert(l[1..], t, n - l[0].delta);
      i := j + 1;
      assert l[..i][1..] == l[1..][..j];
      assert Ids(l)[..i] == [l[0].id] + Ids(l[1..])[..j] && Ids(l)[i..] == Ids(l[1..])[j..];
    }
  }

  lemma {:induction false} IdsRemove(l: seq<Entry>, t: TimerId)
    ensures Ids(Remove(l, t)) == Without(Ids(l), t)
    decreases |l|
  {
    if l != [] {
      if l[0].id == t {
        if |l| > 1 { assert Remove(l, t)[1..] == l[2..] && Ids(l[1..]) == [l[1].id] + Ids(l[2..]); assert l[1..][1..] == l[2..]; }
      } else {
        IdsRemove(l[1..], t);
      }
    }
  }

  lemma {:induction false} IdsAdvance(l: seq<Entry>, n: nat)
    ensures Ids(l) == Expired(l, n) + Ids(Remaining(l, n))
    decreases |l|
  {
    if l != [] {
      if l[0].delta > n {
        assert Remaining(l, n)[1..] == l[1..];
      } else {
        IdsAdvance(l[1..], n - l[0].delta);
      }
    }
  }

  /** One timer spliced into a list. */
  lemma CallsSplice(tm: map<TimerId, Timer>, p: PoolId, ids: seq<TimerId>, i: nat, t: TimerId)
    requires i <= |ids|
    ensures Calls(tm, p, ids) == Calls(tm, p, ids[..i]) + Calls(tm, p, ids[i..])
    ensures var one := if At(tm, t).mode == Submit(p) then [Call(At(tm, t).context, At(tm, t).value)] else [];
            Calls(tm, p, ids[..i] + [t] + ids[i..]) == Calls(tm, p, ids[..i]) + one + Calls(tm, p, ids[i..])
  {
    assert Calls(tm, p, [t]) == if At(tm, t).mode == Submit(p) then [Call(At(tm, t).context, At(tm, t).value)] else [] by {
      assert [t][1..] == [];
    }
    hide Calls;
    CallsJoin(tm, p, ids[..i] + [t], ids[i..]);
    CallsJoin(tm, p, ids[..i], [t]);
    CallsJoin(tm, p, ids[..i], ids[i..]);
    assert ids[..i] + ids[i..] == ids;
  }

  /** Inserting a timer that is no entry of p leaves p's calls and their order alone. */
  lemma CallsInsert(tm: map<TimerId, Timer>, p: PoolId, l: seq<Entry>, t: TimerId, n: nat)
    requires At(tm, t).mode != Submit(p)
    ensures Calls(tm, p, Ids(Insert(l, t, n))) == Calls(tm, p, Ids(l))
  {
    var i := IdsInsert(l, t, n);
    CallsSplice(tm, p, Ids(l), i, t);
  }

  /** Nothing of pool p lies behind a point past its delay. */
  lemma {:induction false} NoneLater(tm: map<TimerId, Timer>, ps: map<PoolId, Pool>, p: PoolId, l: seq<Entry>, acc: nat)
    requires Within(tm, ps, l, acc) && (l != [] ==> acc + l[0].delta > PoolAt(ps, p).delay)
    ensures Calls(tm, p, Ids(l)) == []
    decreases |l|
  {
    if l != [] {
      NoneLater(tm, ps, p, l[1..], acc + l[0].delta);
    }
  }

  lemma {:induction false} WithinTail(tm: map<TimerId, Timer>, ps: map<PoolId, Pool>, l: seq<Entry>, i: nat, acc: nat)
    requires Within(tm, ps, l, acc) && i <= |l|
    ensures Within(tm, ps, l[i..], acc + Span(l[..i]))
    decreases i
  {
    if i == 0 {
      assert l[0..] == l && l[..0] == [];
    } else {
      WithinTail(tm, ps, l[1..], i - 1, acc + l[0].delta);
      assert l[i..] == l[1..][i - 1..];
      assert Span(l[..i]) == l[0].delta + Span(l[1..][..i - 1]) by { assert l[..i][1..] == l[1..][..i - 1]; }
      assert acc + Span(l[..i]) == acc + l[0].delta + Span(l[1..][..i - 1]);
      hide Within;
    }
  }

  /** Calls of one pool wait equally long, so each new one goes behind all of them. */
  lemma CallsAppend(tm: map<TimerId, Timer>, ps: map<PoolId, Pool>, p: PoolId, l: seq<Entry>, t: TimerId)
    requires Within(tm, ps, l, 0) && At(tm, t).mode == Submit(p)
    ensures Calls(tm, p, Ids(Insert(l, t, PoolAt(ps, p).delay))) == Calls(tm, p, Ids(l)) + [Call(At(tm, t).context, At(tm, t).value)]
  {
    var n := PoolAt(ps, p).delay;
    var i := IdsInsert(l, t, n);
    WithinTail(tm, ps, l, i, 0);
    IdsTail(l, i);
    NoneLater(tm, ps, p, l[i..], Span(l[..i]));
    hide Ids, Insert, Calls, Span, Within;
    CallsSplice(tm, p, Ids(l), i, t);
  }

  lemma {:induction false} IdsTail(l: seq<Entry>, i: nat)
    requires i <= |l|
    ensures Ids(l)[i..] == Ids(l[i..])
    decreases i
  {
    if i == 0 {
      assert l[0..] == l;
    } else {
      IdsTail(l[1..], i - 1);
      assert l[i..] == l[1..][i - 1..];
    }
  }

  // ---------- deadlines stay within the pools' delays ----------

  lemma {:induction false} WithinSooner(tm: map<TimerId, Timer>, ps: map<PoolId, Pool>, l: seq<Entry>, acc: nat, acc': nat)
    requires Within(tm, ps, l, acc) && acc' <= acc
    ensures Within(tm, ps, l, acc')
    decreases |l|
  {
    if l != [] {
      WithinSooner(tm, ps, l[1..], acc + l[0].delta, acc' + l[0].delta);
    }
  }

  lemma {:induction false} WithinSame(tm: map<TimerId, Timer>, tm': map<TimerId, Timer>, ps: map<PoolId, Pool>, ps': map<PoolId, Pool>, l: seq<Entry>, acc: nat)
    requires Within(tm, ps, l, acc)
    requires forall t :: At(tm', t).mode == At(tm, t).mode
    requires forall p :: PoolAt(ps', p).delay == PoolAt(ps, p).delay
    ensures Within(tm', ps', l, acc)
    decreases |l|
  {
    if l != [] {
      WithinSame(tm, tm', ps, ps', l[1..], acc + l[0].delta);
    }
  }

  lemma {:induction false} WithinInsert(tm: map<TimerId, Timer>, ps: map<PoolId, Pool>, l: seq<Entry>, acc: nat, t: TimerId, n: nat)
    requires Within(tm, ps, l, acc)
    requires At(tm, t).mode.Submit? ==> InTime(PoolAt(ps, At(tm, t).mode.pool).delay, acc + n)
    ensures Within(tm, ps, Insert(l, t, n), acc)
    decreases |l|
  {
    var r := Insert(l, t, n);
    if l == [] {
      assert r[1..] == [];
    } else if l[0].delta > n {
      var rest := r[1..];
      assert rest == [Entry(l[0].id, l[0].delta - n)] + l[1..];
      assert rest[1..] == l[1..];
    } else {
      WithinInsert(tm, ps, l[1..], acc + l[0].delta, t, n - l[0].delta);
      assert r[1..] == Insert(l[1..], t, n - l[0].delta);
    }
  }

  lemma {:induction false} WithinRemove(tm: map<TimerId, Timer>, ps: map<PoolId, Pool>, l: seq<Entry>, acc: nat, t: TimerId)
    requires Within(tm, ps, l, acc)
    ensures Within(tm, ps, Remove(l, t), acc)
    decreases |l|
  {
    if l != [] {
      var r := Remove(l, t);
      if l[0].id == t {
        if |l| > 1 { assert r[1..] == l[2..] && l[1..][1..] == l[2..] && l[1..][0] == l[1]; }
      } else {
        WithinRemove(tm, ps, l[1..], acc + l[0].delta, t);
        assert r[1..] == Remove(l[1..], t);
      }
    }
  }

  lemma {:induction false} WithinAdvance(tm: map<TimerId, Timer>, ps: map<PoolId, Pool>, l: seq<Entry>, acc: nat, n: nat)
    requires Within(tm, ps, l, acc)
    ensures Within(tm, ps, Remaining(l, n), 0)
    decreases |l|
  {
    if l != [] {
      if l[0].delta > n {
        var r := Remaining(l, n);
        assert r[1..] == l[1..];
        WithinSooner(tm, ps, l[1..], acc + l[0].delta, l[0].delta - n);
      } else {
        WithinAdvance(tm, ps, l[1..], acc + l[0].delta, n - l[0].delta);
      }
    }
  }
}
