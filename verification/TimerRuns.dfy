/** What every timer operation keeps - flags and lists agree, nothing is in two lists - and the submit
    pool as a bounded first-in first-out queue of calls, over whole runs. */
module TimerRuns {
  import opened Sequences
  import opened DeltaList
  import opened Timers

  type Timing = map<TimerId, Timer>

  // ---------- one timer's flags change together with one list ----------

  lemma RunsKept(tm: Timing, t: TimerId, r: Timer, l: seq<Entry>, due: multiset<TimerId>)
    requires RunsOk(tm, l, due) && r.active == At(tm, t).active
    ensures RunsOk(tm[t := r], l, due)
  {
    forall x ensures multiset(Ids(l))[x] + due[x] == if At(tm[t := r], x).active then 1 else 0 {
      assert multiset(Ids(l))[x] + due[x] == if At(tm, x).active then 1 else 0;
    }
  }

  lemma RunsLeft(tm: Timing, t: TimerId, r: Timer, l: seq<Entry>)
    requires RunsOk(tm, l, multiset{}) && !r.active
    ensures RunsOk(tm[t := r], Remove(l, t), multiset{})
  {
    RemoveIds(l, t);
    hide Ids, Remove;
    var none: multiset<TimerId> := multiset{};
    forall x ensures multiset(Ids(Remove(l, t)))[x] + none[x] == if At(tm[t := r], x).active then 1 else 0 {
      assert multiset(Ids(l))[x] + none[x] == if At(tm, x).active then 1 else 0;
    }
  }

  lemma RunsJoined(tm: Timing, t: TimerId, r: Timer, l: seq<Entry>, n: nat, due: multiset<TimerId>)
    requires RunsOk(tm, l, due) && !At(tm, t).active && r.active
    ensures RunsOk(tm[t := r], Insert(l, t, n), due)
  {
    InsertIds(l, t, n);
    hide Ids, Insert;
    forall x ensures multiset(Ids(Insert(l, t, n)))[x] + due[x] == if At(tm[t := r], x).active then 1 else 0 {
      assert multiset(Ids(l))[x] + due[x] == if At(tm, x).active then 1 else 0;
    }
  }

  lemma WaitsKept(tm: Timing, t: TimerId, r: Timer, ready: seq<TimerId>)
    requires WaitsOk(tm, ready) && r.queued == At(tm, t).queued
    ensures WaitsOk(tm[t := r], ready)
  {
    forall x ensures multiset(ready)[x] == if At(tm[t := r], x).queued then 1 else 0 {
      assert multiset(ready)[x] == if At(tm, x).queued then 1 else 0;
    }
  }

  lemma WaitsLeft(tm: Timing, t: TimerId, r: Timer, ready: seq<TimerId>)
    requires WaitsOk(tm, ready) && !r.queued
    ensures WaitsOk(tm[t := r], Without<TimerId>(ready, t))
  {
    WithoutCounts<TimerId>(ready, t);
    hide Without;
    forall x ensures multiset(Without<TimerId>(ready, t))[x] == if At(tm[t := r], x).queued then 1 else 0 {
      assert multiset(ready)[x] == if At(tm, x).queued then 1 else 0;
    }
  }

  lemma WaitsJoined(tm: Timing, t: TimerId, r: Timer, ready: seq<TimerId>)
    requires WaitsOk(tm, ready) && !At(tm, t).queued && r.queued
    ensures WaitsOk(tm[t := r], ready + [t])
  {
    assert multiset(ready + [t]) == multiset(ready) + multiset{t};
    forall x ensures multiset(ready + [t])[x] == if At(tm[t := r], x).queued then 1 else 0 {
      assert multiset(ready)[x] == if At(tm, x).queued then 1 else 0;
    }
  }

  lemma FreedKept(tm: Timing, ps: map<PoolId, Pool>, t: TimerId, r: Timer)
    requires FreedOk(tm, ps) && forall p :: Idle(r, p) == Idle(At(tm, t), p)
    ensures FreedOk(tm[t := r], ps)
  {
    forall p, x ensures multiset(PoolAt(ps, p).free)[x] == if Idle(At(tm[t := r], x), p) then 1 else 0 {
      assert multiset(PoolAt(ps, p).free)[x] == if Idle(At(tm, x), p) then 1 else 0;
    }
  }

  lemma FreedTaken(tm: Timing, ps: map<PoolId, Pool>, p: PoolId, t: TimerId, r: Timer)
    requires FreedOk(tm, ps) && p in ps && ps[p].free != [] && ps[p].free[0] == t && r.mode == Submit(p) && !Idle(r, p)
    ensures FreedOk(tm[t := r], ps[p := ps[p].(free := ps[p].free[1..])])
  {
    var ps' := ps[p := ps[p].(free := ps[p].free[1..])];
    assert ps[p].free == [t] + ps[p].free[1..];
    assert multiset(PoolAt(ps, p).free)[t] == if Idle(At(tm, t), p) then 1 else 0;
    forall q, x ensures multiset(PoolAt(ps', q).free)[x] == if Idle(At(tm[t := r], x), q) then 1 else 0 {
      assert multiset(PoolAt(ps, q).free)[x] == if Idle(At(tm, x), q) then 1 else 0;
    }
  }

  lemma FreedReturned(tm: Timing, ps: map<PoolId, Pool>, p: PoolId, t: TimerId, r: Timer)
    requires FreedOk(tm, ps) && At(tm, t).mode == Submit(p) && !Idle(At(tm, t), p) && Idle(r, p)
    ensures FreedOk(tm[t := r], ps[p := PoolAt(ps, p).(free := PoolAt(ps, p).free + [t])])
  {
    var ps' := ps[p := PoolAt(ps, p).(free := PoolAt(ps, p).free + [t])];
    assert multiset(PoolAt(ps, p).free + [t]) == multiset(PoolAt(ps, p).free) + multiset{t};
    forall q, x ensures multiset(PoolAt(ps', q).free)[x] == if Idle(At(tm[t := r], x), q) then 1 else 0 {
      assert multiset(PoolAt(ps, q).free)[x] == if Idle(At(tm, x), q) then 1 else 0;
    }
  }

  lemma LivesKept(tm: Timing, t: TimerId, r: Timer)
    requires LivesOk(tm) && LifeOk(r)
    ensures LivesOk(tm[t := r])
  {
    var tm' := tm[t := r];
    forall x ensures LifeOk(At(tm', x)) { assert LifeOk(At(tm, x)); }
  }

  lemma LifeAt(tm: Timing, t: TimerId)
    requires LivesOk(tm)
    ensures LifeOk(At(tm, t))
  {
  }

  lemma TwiceIsOnce(tm: Timing, t: TimerId, r1: Timer, r2: Timer)
    ensures tm[t := r1][t := r2] == tm[t := r2]
  {
  }

  // ---------- timers the application starts and stops ----------

  /** An ordinary timer leaves the running list, and may rejoin it or leave the delivery queue. */
  lemma OrdinaryLinked(s: TimerState, t: TimerId, r: Timer, n: nat)
    requires Linked(s) && Valid(s, t) && LifeOk(r) && r.mode == s.timers[t].mode && (r.queued ==> s.timers[t].queued)
    ensures Linked(s.(timers := s.timers[t := r],
                      running := if r.active then Insert(Remove(s.running, t), t, n) else Remove(s.running, t),
                      ready := if r.queued || !s.timers[t].queued then s.ready else Without<TimerId>(s.ready, t)))
  {
    hide RunsOk, WaitsOk, FreedOk, LivesOk, LifeOk, Insert, Remove, Without;
    var out := r.(active := false);
    RunsLeft(s.timers, t, out, s.running);
    if r.active {
      RunsJoined(s.timers[t := out], t, r, Remove(s.running, t), n, multiset{});
      TwiceIsOnce(s.timers, t, out, r);
    }
    if r.queued || !s.timers[t].queued { WaitsKept(s.timers, t, r, s.ready); } else { WaitsLeft(s.timers, t, r, s.ready); }
    FreedKept(s.timers, s.pools, t, r);
    LivesKept(s.timers, t, r);
  }

  /** Rewriting a timer that the list does not name, or whose call stays the same. */
  lemma Rewritten(tm: Timing, t: TimerId, r: Timer, p: PoolId, ids: seq<TimerId>)
    requires t !in ids || SameCall(At(tm, t), r, p)
    ensures Calls(tm[t := r], p, ids) == Calls(tm, p, ids)
  {
    var tm' := tm[t := r];
    forall x | x in ids ensures SameCall(At(tm, x), At(tm', x), p) {}
    CallsSame(tm, tm', p, ids);
  }

  /** Arming, pausing and stopping ordinary timers does not disturb a pool: one lemma for all three. */
  lemma OrdinaryInFlight(s: TimerState, t: TimerId, r: Timer, n: nat, p: PoolId)
    requires Valid(s, t) && !r.mode.Submit?
    ensures InFlight(s.(timers := s.timers[t := r],
                        running := if r.active then Insert(Remove(s.running, t), t, n) else Remove(s.running, t),
                        ready := if r.queued || !s.timers[t].queued then s.ready else Without<TimerId>(s.ready, t)), p) == InFlight(s, p)
  {
    hide Calls, Ids, Insert, Remove, Without;
    var running' := if r.active then Insert(Remove(s.running, t), t, n) else Remove(s.running, t);
    var ready' := if r.queued || !s.timers[t].queued then s.ready else Without<TimerId>(s.ready, t);
    IdsRemove(s.running, t);
    CallsWithout(s.timers, p, s.ready, t);
    CallsWithout(s.timers, p, Ids(s.running), t);
    CallsInsert(s.timers, p, Remove(s.running, t), t, n);
    Rewritten(s.timers, t, r, p, ready');
    Rewritten(s.timers, t, r, p, Ids(running'));
  }

  /** Everything an ordinary timer's call keeps. */
  lemma OrdinarySound(s: TimerState, t: TimerId, r: Timer, n: nat)
    requires Sound(s) && Valid(s, t) && LifeOk(r) && r.mode == s.timers[t].mode && (r.queued ==> s.timers[t].queued)
    ensures Sound(s.(timers := s.timers[t := r],
                     running := if r.active then Insert(Remove(s.running, t), t, n) else Remove(s.running, t),
                     ready := if r.queued || !s.timers[t].queued then s.ready else Without<TimerId>(s.ready, t)))
  {
    var s' := s.(timers := s.timers[t := r],
                 running := if r.active then Insert(Remove(s.running, t), t, n) else Remove(s.running, t),
                 ready := if r.queued || !s.timers[t].queued then s.ready else Without<TimerId>(s.ready, t));
    hide InFlight, Linked, Within, Insert, Remove, Without, LifeOk, PoolsOk, At, Valid;
    forall p ensures InFlight(s', p) == InFlight(s, p) { OrdinaryInFlight(s, t, r, n, p); }
    OrdinaryModes(s.timers, t, r);
    OrdinaryLinked(s, t, r, n);
    SameFlight(s, s');
    WithinRemove(s.timers, s.pools, s.running, 0, t);
    WithinInsert(s.timers, s.pools, Remove(s.running, t), 0, t, n);
    WithinSame(s.timers, s'.timers, s.pools, s.pools, s'.running, 0);
  }

  lemma OrdinaryModes(tm: map<TimerId, Timer>, t: TimerId, r: Timer)
    requires t in tm && r.mode == tm[t].mode
    ensures forall x :: At(tm[t := r], x).mode == At(tm, x).mode
  {
  }

  /** The pools' account depends on calls in flight and free entries only. */
  lemma SameFlight(s: TimerState, s': TimerState)
    requires PoolsOk(s) && s'.pools == s.pools && (forall p :: InFlight(s', p) == InFlight(s, p))
    requires forall t :: At(s'.timers, t).mode == At(s.timers, t).mode
    ensures PoolsOk(s')
  {
    hide InFlight;
    forall p ensures |PoolAt(s'.pools, p).free| + |InFlight(s', p)| == PoolAt(s'.pools, p).count {
      assert |PoolAt(s.pools, p).free| + |InFlight(s, p)| == PoolAt(s.pools, p).count;
    }
  }

  /** Each of the three calls is such a change, or none. */
  lemma ArmIsOrdinary(s: TimerState, t: TimerId, reload: bool, context: nat, value: nat)
    requires Arm(s, t, reload, context, value).1 == Ok
    ensures var s' := Arm(s, t, reload, context, value).0; Valid(s, t) && t in s'.timers && var r := s'.timers[t];
            && LifeOk(r) && r.mode == s.timers[t].mode && (r.queued ==> s.timers[t].queued) && r.active
            && s' == s.(timers := s.timers[t := r], running := Insert(Remove(s.running, t), t, r.remaining),
                        ready := if r.queued || !s.timers[t].queued then s.ready else Without<TimerId>(s.ready, t))
  {
    hide Insert, Remove, Without;
  }

  lemma ArmSound(s: TimerState, t: TimerId, reload: bool, context: nat, value: nat, p: PoolId)
    requires Sound(s)
    ensures Sound(Arm(s, t, reload, context, value).0) && InFlight(Arm(s, t, reload, context, value).0, p) == InFlight(s, p)
  {
    var s' := Arm(s, t, reload, context, value).0;
    if Arm(s, t, reload, context, value).1 == Ok {
      ArmIsOrdinary(s, t, reload, context, value);
      hide Sound, Insert, Remove, Without, Arm, InFlight;
      OrdinarySound(s, t, s'.timers[t], s'.timers[t].remaining);
      OrdinaryInFlight(s, t, s'.timers[t], s'.timers[t].remaining, p);
    }
  }

  lemma PauseSound(s: TimerState, t: TimerId, p: PoolId)
    requires Sound(s)
    ensures Sound(Pause(s, t).0) && InFlight(Pause(s, t).0, p) == InFlight(s, p)
  {
    var s' := Pause(s, t).0;
    if Valid(s, t) && s.timers[t].active {
      LifeAt(s.timers, t);
      hide Sound, Remove, Without, TicksLeft, InFlight;
      OrdinarySound(s, t, s'.timers[t], 0);
      OrdinaryInFlight(s, t, s'.timers[t], 0, p);
    }
  }

  lemma StopSound(s: TimerState, t: TimerId, p: PoolId)
    requires Sound(s)
    ensures Sound(Stop(s, t).0) && InFlight(Stop(s, t).0, p) == InFlight(s, p)
  {
    var s' := Stop(s, t).0;
    if Valid(s, t) {
      if !s.timers[t].queued {
        assert multiset(s.ready)[t] == if At(s.timers, t).queued then 1 else 0;
        WithoutAbsent<TimerId>(s.ready, t);
      }
      hide Sound, Remove, Without, TicksLeft, Ids, InFlight;
      OrdinarySound(s, t, s'.timers[t], 0);
      OrdinaryInFlight(s, t, s'.timers[t], 0, p);
    }
  }

  // ---------- submitting ----------

  /** The entry a submission takes: the front of the pool's free list. */
  lemma FrontIsFree(s: TimerState, p: PoolId)
    requires Linked(s) && PoolAt(s.pools, p).free != []
    ensures Idle(At(s.timers, PoolAt(s.pools, p).free[0]), p)
  {
    var e := PoolAt(s.pools, p).free[0];
    assert multiset(PoolAt(s.pools, p).free)[e] > 0;
  }

  lemma SubmitLinked(s: TimerState, p: PoolId, context: nat, value: nat)
    requires Linked(s)
    ensures Linked(SubmitCall(s, p, context, value).0)
  {
    if SubmitCall(s, p, context, value).1 == Ok {
      FrontIsFree(s, p);
      hide RunsOk, WaitsOk, FreedOk, LivesOk, Insert;
      var e := s.pools[p].free[0];
      var s' := SubmitCall(s, p, context, value).0;
      var r := s'.timers[e];
      FreedTaken(s.timers, s.pools, p, e, r);
      LivesKept(s.timers, e, r);
      if s.pools[p].delay == 0 {
        RunsKept(s.timers, e, r, s.running, multiset{});
        WaitsJoined(s.timers, e, r, s.ready);
      } else {
        RunsJoined(s.timers, e, r, s.running, s.pools[p].delay, multiset{});
        WaitsKept(s.timers, e, r, s.ready);
      }
    }
  }

  lemma IdleIsNowhere(s: TimerState, t: TimerId)
    requires Linked(s)
    ensures !At(s.timers, t).active ==> t !in Ids(s.running)
    ensures !At(s.timers, t).queued ==> t !in s.ready
  {
    hide Ids;
    var none: multiset<TimerId> := multiset{};
    assert multiset(Ids(s.running))[t] + none[t] == if At(s.timers, t).active then 1 else 0;
    assert multiset(s.ready)[t] == if At(s.timers, t).queued then 1 else 0;
  }

  /** Each successful submission joins its pool's queue at the end, with its own context and value, and
      no other pool notices. */
  lemma SubmitAppends(s: TimerState, p: PoolId, context: nat, value: nat, q: PoolId)
    requires Sound(s) && SubmitCall(s, p, context, value).1 == Ok
    ensures InFlight(SubmitCall(s, p, context, value).0, q)
         == InFlight(s, q) + if q == p then [Call(context, value)] else []
  {
    var s' := SubmitCall(s, p, context, value).0;
    FrontIsFree(s, p);
    var e := s.pools[p].free[0];
    var r := s'.timers[e];
    var tm := s.timers[e := r];
    assert s'.timers == tm && r.mode == Submit(p) && r.context == context && r.value == value;
    IdleIsNowhere(s, e);
    Rewritten(s.timers, e, r, q, s.ready);
    Rewritten(s.timers, e, r, q, Ids(s.running));
    WithinSame(s.timers, tm, s.pools, s.pools, s.running, 0);
    if s.pools[p].delay == 0 {
      assert s'.ready == s.ready + [e] && s'.running == s.running;
      hide Sound, SubmitCall, Calls, Within, Ids, Linked, PoolsOk;
      QueueGrows(tm, s.pools, p, q, s.ready, s.running, e);
    } else {
      assert s'.ready == s.ready && s'.running == Insert(s.running, e, s.pools[p].delay);
      hide Sound, SubmitCall, Calls, Within, Ids, Insert, Linked, PoolsOk;
      CountdownGrows(tm, s.pools, p, q, s.ready, s.running, e);
    }
  }

  /** Joining the countdown: behind every call of the same pool. */
  lemma CountdownGrows(tm: Timing, ps: map<PoolId, Pool>, p: PoolId, q: PoolId, ready: seq<TimerId>, running: seq<Entry>, e: TimerId)
    requires Within(tm, ps, running, 0) && At(tm, e).mode == Submit(p)
    ensures Calls(tm, q, ready) + Calls(tm, q, Ids(Insert(running, e, PoolAt(ps, p).delay)))
         == Calls(tm, q, ready) + Calls(tm, q, Ids(running)) + if q == p then [Call(At(tm, e).context, At(tm, e).value)] else []
  {
    hide Calls, Within, Ids, Insert;
    if q == p { CallsAppend(tm, ps, p, running, e); } else { CallsInsert(tm, q, running, e, PoolAt(ps, p).delay); }
  }

  /** Joining the delivery queue directly: the pool has nothing counting down. */
  lemma QueueGrows(tm: Timing, ps: map<PoolId, Pool>, p: PoolId, q: PoolId, ready: seq<TimerId>, running: seq<Entry>, e: TimerId)
    requires Within(tm, ps, running, 0) && PoolAt(ps, p).delay == 0 && At(tm, e).mode == Submit(p)
    ensures Calls(tm, q, ready + [e]) + Calls(tm, q, Ids(running))
         == Calls(tm, q, ready) + Calls(tm, q, Ids(running)) + if q == p then [Call(At(tm, e).context, At(tm, e).value)] else []
  {
    hide Calls, Within, Ids;
    CallsOne(tm, q, e);
    CallsJoin(tm, q, ready, [e]);
    if q == p { ZeroDelayNeverRuns(tm, ps, p, running, 0); }
  }

  lemma CallsOne(tm: map<TimerId, Timer>, p: PoolId, t: TimerId)
    ensures Calls(tm, p, [t]) == if At(tm, t).mode == Submit(p) then [Call(At(tm, t).context, At(tm, t).value)] else []
  {
    assert [t][1..] == [];
  }

  /** A pool with no delay has nothing counting down. */
  lemma {:induction false} ZeroDelayNeverRuns(tm: map<TimerId, Timer>, ps: map<PoolId, Pool>, p: PoolId, l: seq<Entry>, acc: nat)
    requires Within(tm, ps, l, acc) && PoolAt(ps, p).delay == 0
    ensures Calls(tm, p, Ids(l)) == []
    decreases |l|
  {
    if l != [] {
      ZeroDelayNeverRuns(tm, ps, p, l[1..], acc + l[0].delta);
    }
  }

  /** Taking an entry off the free list and giving its call to the queue balance. */
  lemma SubmitSound(s: TimerState, p: PoolId, context: nat, value: nat)
    requires Sound(s)
    ensures Sound(SubmitCall(s, p, context, value).0)
  {
    var s' := SubmitCall(s, p, context, value).0;
    SubmitLinked(s, p, context, value);
    hide InFlight;
    if SubmitCall(s, p, context, value).1 == Ok {
      forall q ensures InFlight(s', q) == InFlight(s, q) + if q == p then [Call(context, value)] else [] {
        SubmitAppends(s, p, context, value, q);
      }
      FrontIsFree(s, p);
      SubmitShape(s, p, context, value);
      hide Linked, InFlight, Within, Insert, PoolsOk, SubmitCall;
      SubmitPools(s, s', p, Call(context, value));
      SubmitWithin(s, p, context, value);
    }
  }

  lemma SubmitShape(s: TimerState, p: PoolId, context: nat, value: nat)
    requires SubmitCall(s, p, context, value).1 == Ok
    ensures var s' := SubmitCall(s, p, context, value).0;
            && p in s.pools && s.pools[p].free != [] && s'.pools == s.pools[p := s.pools[p].(free := s.pools[p].free[1..])]
            && forall t :: At(s'.timers, t).mode == At(s.timers, t).mode
  {
    hide Insert;
  }

  lemma SubmitWithin(s: TimerState, p: PoolId, context: nat, value: nat)
    requires Within(s.timers, s.pools, s.running, 0) && SubmitCall(s, p, context, value).1 == Ok
    requires At(s.timers, s.pools[p].free[0]).mode == Submit(p)
    ensures var s' := SubmitCall(s, p, context, value).0; Within(s'.timers, s'.pools, s'.running, 0)
  {
    var s' := SubmitCall(s, p, context, value).0;
    hide Within, Insert;
    if s.pools[p].delay != 0 { WithinInsert(s.timers, s.pools, s.running, 0, s.pools[p].free[0], s.pools[p].delay); }
    WithinSame(s.timers, s'.timers, s.pools, s'.pools, s'.running, 0);
  }

  lemma SubmitPools(s: TimerState, s': TimerState, p: PoolId, call: Call)
    requires PoolsOk(s) && p in s.pools && s.pools[p].free != []
    requires s'.pools == s.pools[p := s.pools[p].(free := s.pools[p].free[1..])]
    requires forall t :: At(s'.timers, t).mode == At(s.timers, t).mode
    requires forall q :: InFlight(s', q) == InFlight(s, q) + if q == p then [call] else []
    ensures PoolsOk(s')
  {
    hide InFlight;
    forall q ensures |PoolAt(s'.pools, q).free| + |InFlight(s', q)| == PoolAt(s'.pools, q).count {
      assert |PoolAt(s.pools, q).free| + |InFlight(s, q)| == PoolAt(s.pools, q).count;
      assert InFlight(s', q) == InFlight(s, q) + if q == p then [call] else [];
    }
  }

  /** FULL means that every one of the pool's entries is in flight. */
  lemma FullMeansAllInFlight(s: TimerState, p: PoolId, context: nat, value: nat)
    requires Sound(s) && p in s.pools && s.pools[p].count != 0
    ensures SubmitCall(s, p, context, value).1 == Full <==> |InFlight(s, p)| == s.pools[p].count
  {
    assert |PoolAt(s.pools, p).free| + |InFlight(s, p)| == PoolAt(s.pools, p).count;
  }

  // ---------- ticking ----------

  /** The calls of p while due timers are off the running list. */
  function InFlightDue(s: TimerState, p: PoolId, due: seq<TimerId>): seq<Call> {
    Calls(s.timers, p, s.ready) + Calls(s.timers, p, due) + Calls(s.timers, p, Ids(s.running))
  }

  /** A due timer is active, off the list, and due once. */
  lemma DueFront(tm: Timing, l: seq<Entry>, due: seq<TimerId>)
    requires due != [] && RunsOk(tm, l, multiset(due))
    ensures At(tm, due[0]).active && due[0] !in Ids(l) && due[0] !in due[1..]
  {
    hide Ids;
    assert due == [due[0]] + due[1..];
    assert multiset(Ids(l))[due[0]] + multiset(due)[due[0]] == if At(tm, due[0]).active then 1 else 0;
  }

  lemma RunsExpired(tm: Timing, l: seq<Entry>, due: seq<TimerId>, r: Timer)
    requires due != [] && RunsOk(tm, l, multiset(due)) && !r.active
    ensures RunsOk(tm[due[0] := r], l, multiset(due[1..]))
  {
    hide Ids;
    var t := due[0];
    assert due == [t] + due[1..];
    assert multiset(Ids(l))[t] + multiset(due)[t] == if At(tm, t).active then 1 else 0;
    forall x ensures multiset(Ids(l))[x] + multiset(due[1..])[x] == if At(tm[t := r], x).active then 1 else 0 {
      assert multiset(Ids(l))[x] + multiset(due)[x] == if At(tm, x).active then 1 else 0;
    }
  }

  lemma ExpireLinked(s: TimerState, due: seq<TimerId>)
    requires due != [] && LinkedDue(s, multiset(due))
    ensures LinkedDue(Expire(s, due[0]), multiset(due[1..]))
    ensures At(s.timers, due[0]).active && due[0] !in Ids(s.running) && due[0] !in due[1..] && LifeOk(At(s.timers, due[0]))
  {
    var t := due[0];
    var r := At(s.timers, t);
    DueFront(s.timers, s.running, due);
    LifeAt(s.timers, t);
    hide RunsOk, WaitsOk, FreedOk, LivesOk, Insert, Ids;
    var s' := Expire(s, t);
    var r' := s'.timers[t];
    var out := r'.(active := false);
    RunsExpired(s.timers, s.running, due, out);
    if r.mode == Periodic {
      RunsJoined(s.timers[t := out], t, r', s.running, r.period, multiset(due[1..]));
      TwiceIsOnce(s.timers, t, out, r');
    }
    if r.queued { WaitsKept(s.timers, t, r', s.ready); } else { WaitsJoined(s.timers, t, r', s.ready); }
    FreedKept(s.timers, s.pools, t, r');
    LivesKept(s.timers, t, r');
  }

  lemma Regroup(a: seq<Call>, b: seq<Call>, c: seq<Call>, d: seq<Call>)
    ensures (a + b) + c + d == a + (b + c) + d
  {
  }

  /** A due pool entry moves to the end of the delivery queue; any other due timer is not the pool's. */
  lemma ExpireInFlight(s: TimerState, due: seq<TimerId>, p: PoolId)
    requires due != [] && LinkedDue(s, multiset(due))
    ensures InFlightDue(Expire(s, due[0]), p, due[1..]) == InFlightDue(s, p, due)
  {
    ExpireLinked(s, due);
    hide LinkedDue, Calls, Insert, Ids, LifeOk, InFlightDue, Expire;
    var t := due[0];
    var r := At(s.timers, t);
    assert due == [t] + due[1..];
    CallsJoin(s.timers, p, [t], due[1..]);
    LifeOfDue(r);
    ExpireCalls(s, t, p, due[1..]);
    Regroup(Calls(s.timers, p, s.ready), Calls(s.timers, p, [t]), Calls(s.timers, p, due[1..]), Calls(s.timers, p, Ids(s.running)));
    FlightIs(s, p, due);
    FlightIs(Expire(s, t), p, due[1..]);
  }

  lemma LifeOfDue(r: Timer)
    requires LifeOk(r) && r.active
    ensures r.mode.Submit? ==> !r.queued
  {
  }

  lemma FlightIs(s: TimerState, p: PoolId, due: seq<TimerId>)
    ensures InFlightDue(s, p, due) == Calls(s.timers, p, s.ready) + Calls(s.timers, p, due) + Calls(s.timers, p, Ids(s.running))
  {
  }

  lemma ExpireCalls(s: TimerState, t: TimerId, p: PoolId, rest: seq<TimerId>)
    requires At(s.timers, t).mode.Submit? ==> !At(s.timers, t).queued
    ensures var s' := Expire(s, t);
            && Calls(s'.timers, p, s'.ready) == Calls(s.timers, p, s.ready) + Calls(s.timers, p, [t])
            && Calls(s'.timers, p, rest) == Calls(s.timers, p, rest)
            && Calls(s'.timers, p, Ids(s'.running)) == Calls(s.timers, p, Ids(s.running))
  {
    hide Calls, Insert, Ids;
    var r := At(s.timers, t);
    var s' := Expire(s, t);
    var r' := s'.timers[t];
    assert SameCall(r, r', p);
    Rewritten(s.timers, t, r', p, s'.ready);
    Rewritten(s.timers, t, r', p, rest);
    Rewritten(s.timers, t, r', p, Ids(s'.running));
    CallsOne(s.timers, p, t);
    if r.queued { assert Calls(s.timers, p, s.ready) + [] == Calls(s.timers, p, s.ready); } else { CallsJoin(s.timers, p, s.ready, [t]); }
    if r.mode == Periodic { CallsInsert(s.timers, p, s.running, t, r.period); }
  }

  lemma ExpireWithin(s: TimerState, t: TimerId)
    requires Within(s.timers, s.pools, s.running, 0)
    ensures Within(Expire(s, t).timers, Expire(s, t).pools, Expire(s, t).running, 0) && Expire(s, t).pools == s.pools
    ensures forall x :: At(Expire(s, t).timers, x).mode == At(s.timers, x).mode
  {
    hide Within, Insert;
    var s1 := Expire(s, t);
    if At(s.timers, t).mode == Periodic { WithinInsert(s.timers, s.pools, s.running, 0, t, At(s.timers, t).period); }
    assert forall x :: At(s1.timers, x).mode == At(s.timers, x).mode;
    WithinSame(s.timers, s1.timers, s.pools, s1.pools, s1.running, 0);
  }

  lemma {:induction false} ExpireEachKeeps(s: TimerState, due: seq<TimerId>)
    requires LinkedDue(s, multiset(due)) && Within(s.timers, s.pools, s.running, 0)
    ensures Linked(ExpireEach(s, due)) && Within(ExpireEach(s, due).timers, ExpireEach(s, due).pools, ExpireEach(s, due).running, 0)
    ensures ExpireEach(s, due).pools == s.pools
    ensures forall p :: InFlight(ExpireEach(s, due), p) == InFlightDue(s, p, due)
    ensures forall t :: At(ExpireEach(s, due).timers, t).mode == At(s.timers, t).mode
    decreases |due|
  {
    if due == [] {
      assert multiset(due) == multiset{};
    } else {
      var s1 := Expire(s, due[0]);
      ExpireLinked(s, due);
      forall p ensures InFlightDue(s1, p, due[1..]) == InFlightDue(s, p, due) { ExpireInFlight(s, due, p); }
      hide LinkedDue, Expire, InFlightDue, InFlight, Within;
      ExpireWithin(s, due[0]);
      ExpireEachKeeps(s1, due[1..]);
    }
  }

  /** A tick delivers nothing and loses nothing: every pool's queue is as it was, and the flags and lists
      agree again. */
  lemma TickKeeps(s: TimerState, ticks: nat)
    requires Sound(s)
    ensures Sound(Tick(s, ticks))
    ensures forall p :: InFlight(Tick(s, ticks), p) == InFlight(s, p)
  {
    if ticks != 0 {
      var due := Expired(s.running, ticks);
      var s1 := s.(running := Remaining(s.running, ticks));
      hide LinkedDue, Within, ExpireEach, Calls, Expired, Remaining, Ids, InFlight, InFlightDue, PoolsOk;
      IdsAdvance(s.running, ticks);
      DetachLinked(s, s1, due);
      forall p ensures InFlightDue(s1, p, due) == InFlight(s, p) { DetachFlight(s, s1, p, due); }
      WithinAdvance(s.timers, s.pools, s.running, 0, ticks);
      ExpireEachKeeps(s1, due);
      SameFlight(s, Tick(s, ticks));
    }
  }

  lemma DetachFlight(s: TimerState, s1: TimerState, p: PoolId, due: seq<TimerId>)
    requires s1 == s.(running := s1.running) && Ids(s.running) == due + Ids(s1.running)
    ensures InFlightDue(s1, p, due) == InFlight(s, p)
  {
    hide Calls, Ids;
    CallsJoin(s.timers, p, due, Ids(s1.running));
    var a, b, c := Calls(s.timers, p, s.ready), Calls(s.timers, p, due), Calls(s.timers, p, Ids(s1.running));
    assert a + b + c == a + (b + c);
  }

  /** The due prefix, detached, is all that is missing from the running list. */
  lemma DetachLinked(s: TimerState, s1: TimerState, due: seq<TimerId>)
    requires Linked(s) && s1 == s.(running := s1.running) && Ids(s.running) == due + Ids(s1.running)
    ensures LinkedDue(s1, multiset(due))
  {
    hide Ids, WaitsOk, FreedOk, LivesOk;
    assert multiset(Ids(s.running)) == multiset(due) + multiset(Ids(s1.running));
    var none: multiset<TimerId> := multiset{};
    forall t ensures multiset(Ids(s1.running))[t] + multiset(due)[t] == if At(s1.timers, t).active then 1 else 0 {
      assert multiset(Ids(s.running))[t] + none[t] == if At(s.timers, t).active then 1 else 0;
    }
  }

  // ---------- delivering ----------

  /** What a delivery finds at the front of the queue. */
  lemma FrontIsQueued(s: TimerState)
    requires Linked(s) && s.ready != []
    ensures var t := s.ready[0]; var r := At(s.timers, t);
            && r.queued && LifeOk(r) && t !in s.ready[1..] && (!r.active ==> t !in Ids(s.running))
    ensures Fetch(s).0.running == s.running && Fetch(s).0.ready == s.ready[1..]
  {
    var t := s.ready[0];
    hide Ids, Remove;
    assert s.ready == [t] + s.ready[1..];
    assert multiset(s.ready)[t] == if At(s.timers, t).queued then 1 else 0;
    IdleIsNowhere(s, t);
    LifeAt(s.timers, t);
    if !At(s.timers, t).active { RemoveMiss(s.running, t); }
  }

  /** What a delivery writes: the timer's record and, for a pool entry, its pool's free list. */
  lemma FetchShape(s: TimerState)
    requires s.ready != []
    ensures var t := s.ready[0]; var r := At(s.timers, t); var s' := Fetch(s).0;
            && t in s'.timers && s'.timers == s.timers[t := s'.timers[t]]
            && s'.timers[t] == r.(queued := false, context := s'.timers[t].context, value := s'.timers[t].value)
            && (!r.mode.Submit? || r.active || r.paused ==> s'.pools == s.pools && s'.timers[t] == r.(queued := false))
            && (r.mode.Submit? && !r.active && !r.paused ==>
                s'.pools == s.pools[r.mode.pool := PoolAt(s.pools, r.mode.pool).(free := PoolAt(s.pools, r.mode.pool).free + [t])])
            && Fetch(s).1 == Some(Call(r.context, r.value))
  {
    hide Remove;
  }

  lemma WaitsPopped(tm: Timing, ready: seq<TimerId>, r: Timer)
    requires ready != [] && WaitsOk(tm, ready) && !r.queued
    ensures WaitsOk(tm[ready[0] := r], ready[1..])
  {
    var t := ready[0];
    assert ready == [t] + ready[1..];
    forall x ensures multiset(ready[1..])[x] == if At(tm[t := r], x).queued then 1 else 0 {
      assert multiset(ready)[x] == if At(tm, x).queued then 1 else 0;
    }
  }

  lemma FetchLinked(s: TimerState)
    requires Linked(s)
    ensures Linked(Fetch(s).0)
  {
    if s.ready != [] {
      FrontIsQueued(s);
      FetchShape(s);
      var s' := Fetch(s).0;
      var t := s.ready[0];
      var r, r' := At(s.timers, t), s'.timers[t];
      hide RunsOk, WaitsOk, FreedOk, LivesOk, Fetch, Ids;
      RunsKept(s.timers, t, r', s.running, multiset{});
      WaitsPopped(s.timers, s.ready, r');
      LivesKept(s.timers, t, r');
      if r.mode.Submit? { FreedReturned(s.timers, s.pools, r.mode.pool, t, r'); } else { FreedKept(s.timers, s.pools, t, r'); }
    }
  }

  /** The head of the delivery queue, if it is a pool entry, is the oldest call of its pool, and leaves it. */
  lemma FetchTakesTheOldest(s: TimerState, p: PoolId)
    requires Linked(s) && s.ready != []
    ensures var r := At(s.timers, s.ready[0]); var (s', call) := Fetch(s);
            call.Some? && if r.mode == Submit(p) then InFlight(s, p) == [call.value] + InFlight(s', p) else InFlight(s', p) == InFlight(s, p)
  {
    FrontIsQueued(s);
    FetchShape(s);
    hide LinkedDue, Fetch, Calls, Ids;
    var t := s.ready[0];
    var r := At(s.timers, t);
    var s' := Fetch(s).0;
    var r' := s'.timers[t];
    assert s.ready == [t] + s'.ready;
    CallsJoin(s.timers, p, [t], s'.ready);
    CallsOne(s.timers, p, t);
    FetchQuiet(r, r', p);
    hide SameCall, LifeOk;
    Rewritten(s.timers, t, r', p, s'.ready);
    Rewritten(s.timers, t, r', p, Ids(s.running));
    FetchConcat(s, s', p, t);
  }

  lemma FetchConcat(s: TimerState, s': TimerState, p: PoolId, t: TimerId)
    requires Calls(s.timers, p, s.ready) == Calls(s.timers, p, [t]) + Calls(s.timers, p, s'.ready)
    requires Calls(s'.timers, p, s'.ready) == Calls(s.timers, p, s'.ready)
    requires Calls(s'.timers, p, Ids(s'.running)) == Calls(s.timers, p, Ids(s.running))
    ensures InFlight(s, p) == Calls(s.timers, p, [t]) + InFlight(s', p)
  {
    hide Calls, Ids;
  }

  /** A timer still counting keeps its call when delivered; only a finished entry is wiped. */
  lemma FetchQuiet(r: Timer, r': Timer, p: PoolId)
    requires LifeOk(r) && r.queued && r' == r.(queued := false, context := r'.context, value := r'.value)
    ensures r.mode.Submit? ==> !r.active && !r.paused
    ensures !r.mode.Submit? ==> SameCall(r, r', p)
  {
  }

  lemma FetchSound(s: TimerState)
    requires Sound(s)
    ensures Sound(Fetch(s).0)
  {
    FetchLinked(s);
    if s.ready != [] {
      hide InFlight, LinkedDue, Within;
      forall p ensures |InFlight(Fetch(s).0, p)| == |InFlight(s, p)| - (if At(s.timers, s.ready[0]).mode == Submit(p) then 1 else 0) {
        FetchTakesTheOldest(s, p);
      }
      hide Fetch, PoolsOk;
      FetchAccount(s);
      FetchWithin(s);
    }
  }

  /** A delivery changes no mode, no delay and no count, and frees what it took. */
  lemma FetchKeepsShapes(s: TimerState)
    requires Linked(s) && s.ready != []
    ensures var s' := Fetch(s).0; var r := At(s.timers, s.ready[0]);
            && (forall x :: At(s'.timers, x).mode == At(s.timers, x).mode)
            && (forall q :: PoolAt(s'.pools, q).delay == PoolAt(s.pools, q).delay && PoolAt(s'.pools, q).count == PoolAt(s.pools, q).count)
            && (forall q :: |PoolAt(s'.pools, q).free| == |PoolAt(s.pools, q).free| + (if r.mode == Submit(q) then 1 else 0))
            && (forall q :: q in s.pools ==> q in s'.pools) && s'.running == s.running
  {
    FrontIsQueued(s);
    FetchShape(s);
    hide Fetch, LinkedDue;
    var t := s.ready[0];
    var r := At(s.timers, t);
    FetchQuiet(r, Fetch(s).0.timers[t], 0);
    hide LifeOk, SameCall;
    if r.mode.Submit? { FreeGrows(s.pools, r.mode.pool, t); }
  }

  lemma FetchWithin(s: TimerState)
    requires Linked(s) && s.ready != [] && Within(s.timers, s.pools, s.running, 0)
    ensures Within(Fetch(s).0.timers, Fetch(s).0.pools, Fetch(s).0.running, 0)
  {
    hide Fetch, Linked, Within;
    FetchKeepsShapes(s);
    WithinSame(s.timers, Fetch(s).0.timers, s.pools, Fetch(s).0.pools, s.running, 0);
  }

  lemma FetchAccount(s: TimerState)
    requires Linked(s) && s.ready != [] && PoolsOk(s)
    requires forall p :: |InFlight(Fetch(s).0, p)| == |InFlight(s, p)| - (if At(s.timers, s.ready[0]).mode == Submit(p) then 1 else 0)
    ensures PoolsOk(Fetch(s).0)
  {
    hide Fetch, Linked, PoolsOk, InFlight;
    FetchKeepsShapes(s);
    FetchPools(s, Fetch(s).0, At(s.timers, s.ready[0]));
  }

  lemma FreeGrows(ps: map<PoolId, Pool>, p: PoolId, t: TimerId)
    ensures var ps' := ps[p := PoolAt(ps, p).(free := PoolAt(ps, p).free + [t])];
            && (forall q :: |PoolAt(ps', q).free| == |PoolAt(ps, q).free| + (if q == p then 1 else 0))
            && (forall q :: PoolAt(ps', q).delay == PoolAt(ps, q).delay && PoolAt(ps', q).count == PoolAt(ps, q).count)
            && (forall q :: q in ps ==> q in ps')
  {
  }

  lemma FetchPools(s: TimerState, s': TimerState, r: Timer)
    requires PoolsOk(s) && (forall t :: At(s'.timers, t).mode == At(s.timers, t).mode)
    requires forall p :: |InFlight(s', p)| == |InFlight(s, p)| - (if r.mode == Submit(p) then 1 else 0)
    requires forall p :: |PoolAt(s'.pools, p).free| == |PoolAt(s.pools, p).free| + (if r.mode == Submit(p) then 1 else 0)
    requires forall p :: PoolAt(s'.pools, p).count == PoolAt(s.pools, p).count && (p in s.pools ==> p in s'.pools)
    ensures PoolsOk(s')
  {
    hide InFlight;
    forall p ensures |PoolAt(s'.pools, p).free| + |InFlight(s', p)| == PoolAt(s'.pools, p).count {
      assert |PoolAt(s.pools, p).free| + |InFlight(s, p)| == PoolAt(s.pools, p).count;
    }
  }

  // ---------- whole runs ----------

  datatype Step =
    | Start(t: TimerId, reload: bool, context: nat, value: nat) | Halt(t: TimerId) | End(t: TimerId)
    | Defer(p: PoolId, context: nat, value: nat) | Pass(ticks: nat) | Deliver

  function After(s: TimerState, a: Step): TimerState {
    match a
    case Start(t, reload, context, value) => Arm(s, t, reload, context, value).0
    case Halt(t) => Pause(s, t).0
    case End(t) => Stop(s, t).0
    case Defer(p, context, value) => SubmitCall(s, p, context, value).0
    case Pass(ticks) => Tick(s, ticks)
    case Deliver => Fetch(s).0
  }

  /** The call a step submits to pool p, if any. */
  function Submitted(s: TimerState, a: Step, p: PoolId): seq<Call> {
    if a.Defer? && a.p == p && SubmitCall(s, p, a.context, a.value).1 == Ok then [Call(a.context, a.value)] else []
  }

  /** The call a step delivers from pool p, if any. */
  function Delivered(s: TimerState, a: Step, p: PoolId): seq<Call> {
    if a.Deliver? && s.ready != [] && At(s.timers, s.ready[0]).mode == Submit(p) then [Fetch(s).1.value] else []
  }

  lemma StepSound(s: TimerState, a: Step)
    requires Sound(s)
    ensures Sound(After(s, a))
  {
    hide Sound;
    match a
    case Start(t, reload, context, value) => ArmSound(s, t, reload, context, value, 0);
    case Halt(t) => PauseSound(s, t, 0);
    case End(t) => StopSound(s, t, 0);
    case Defer(q, context, value) => SubmitSound(s, q, context, value);
    case Pass(ticks) => TickKeeps(s, ticks);
    case Deliver => FetchSound(s);
  }

  lemma QuietFlight(s: TimerState, a: Step, p: PoolId)
    requires Sound(s) && !a.Defer? && !a.Deliver?
    ensures InFlight(After(s, a), p) == InFlight(s, p)
  {
    hide Sound, InFlight, Arm, Pause, Stop, SubmitCall, Tick, Fetch;
    match a
    case Start(t, reload, context, value) => ArmSound(s, t, reload, context, value, p);
    case Halt(t) => PauseSound(s, t, p);
    case End(t) => StopSound(s, t, p);
    case Pass(ticks) => TickKeeps(s, ticks);
  }

  lemma DeferFlight(s: TimerState, q: PoolId, context: nat, value: nat, p: PoolId)
    requires Sound(s)
    ensures InFlight(After(s, Defer(q, context, value)), p) == InFlight(s, p) + Submitted(s, Defer(q, context, value), p)
  {
    hide Sound, InFlight, SubmitCall;
    if SubmitCall(s, q, context, value).1 == Ok { SubmitAppends(s, q, context, value, p); } else { RefusedSubmit(s, q, context, value); }
  }

  lemma NothingEitherEnd(x: seq<Call>)
    ensures x + [] == x && [] + x == x
  {
  }

  /** Only a submission to p and a delivery from p change p's queue, at its two ends. */
  lemma StepFlight(s: TimerState, a: Step, p: PoolId)
    requires Sound(s)
    ensures InFlight(s, p) + Submitted(s, a, p) == Delivered(s, a, p) + InFlight(After(s, a), p)
  {
    assert Linked(s);
    hide Sound, InFlight, Linked, After, SubmitCall, Fetch;
    NothingEitherEnd(InFlight(s, p));
    NothingEitherEnd(InFlight(After(s, a), p));
    if a.Defer? { DeferFlight(s, a.p, a.context, a.value, p); }
    else if a.Deliver? { DeliverFlight(s, p); }
    else { QuietFlight(s, a, p); }
  }

  lemma RefusedSubmit(s: TimerState, p: PoolId, context: nat, value: nat)
    requires SubmitCall(s, p, context, value).1 != Ok
    ensures SubmitCall(s, p, context, value).0 == s
  {
  }

  lemma DeliverFlight(s: TimerState, p: PoolId)
    requires Linked(s)
    ensures InFlight(s, p) == Delivered(s, Deliver, p) + InFlight(After(s, Deliver), p)
  {
    hide InFlight, Linked;
    if s.ready != [] {
      FetchTakesTheOldest(s, p);
    } else {
      assert Fetch(s).0 == s;
    }
    hide Fetch;
    assert [] + InFlight(After(s, Deliver), p) == InFlight(After(s, Deliver), p);
  }

  function AfterAll(s: TimerState, steps: seq<Step>): TimerState
    decreases |steps|
  {
    if steps == [] then s else AfterAll(After(s, steps[0]), steps[1..])
  }

  function AllSubmitted(s: TimerState, steps: seq<Step>, p: PoolId): seq<Call>
    decreases |steps|
  {
    if steps == [] then [] else Submitted(s, steps[0], p) + AllSubmitted(After(s, steps[0]), steps[1..], p)
  }

  function AllDelivered(s: TimerState, steps: seq<Step>, p: PoolId): seq<Call>
    decreases |steps|
  {
    if steps == [] then [] else Delivered(s, steps[0], p) + AllDelivered(After(s, steps[0]), steps[1..], p)
  }

  /** A submit pool refines a bounded first-in first-out queue: over any run, what was delivered, followed
      by what is still in flight, is exactly what was submitted, in submission order - each call once,
      with its own context and value. */
  lemma {:induction false} PoolIsAQueue(s: TimerState, steps: seq<Step>, p: PoolId)
    requires Sound(s)
    ensures Sound(AfterAll(s, steps))
    ensures InFlight(s, p) + AllSubmitted(s, steps, p) == AllDelivered(s, steps, p) + InFlight(AfterAll(s, steps), p)
    decreases |steps|
  {
    hide Sound, InFlight, After, Submitted, Delivered;
    if steps != [] {
      var s1 := After(s, steps[0]);
      StepSound(s, steps[0]);
      StepFlight(s, steps[0], p);
      PoolIsAQueue(s1, steps[1..], p);
      var a, b := Submitted(s, steps[0], p), AllSubmitted(s1, steps[1..], p);
      var c, d := Delivered(s, steps[0], p), AllDelivered(s1, steps[1..], p);
      assert InFlight(s, p) + (a + b) == (InFlight(s, p) + a) + b;
      assert (c + InFlight(s1, p)) + b == c + (InFlight(s1, p) + b);
      assert c + (d + InFlight(AfterAll(s, steps), p)) == (c + d) + InFlight(AfterAll(s, steps), p);
    }
  }
}
