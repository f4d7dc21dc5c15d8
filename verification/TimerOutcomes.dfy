/** What a caller can tell of every timer operation: its answer, what has become of the timer and when it is
    next due, and that no other timer is disturbed. Then over runs: a stopped timer stays silent, a running one
    counts exactly the ticks that pass, and a paused one keeps what it had left until it is resumed. */
module TimerOutcomes {
  import opened Sequences
  import opened DeltaList
  import opened Timers
  import opened TimerRuns

  /** Nothing about x changes: record, countdown, and whether a delivery awaits it. */
  predicate SameFor(s: TimerState, s': TimerState, x: TimerId) {
    && At(s'.timers, x) == At(s.timers, x) && (x in Ids(s'.running) <==> x in Ids(s.running))
    && TicksLeft(s'.running, x) == TicksLeft(s.running, x) && (x in s'.ready <==> x in s.ready)
  }

  /** Nothing changes but timer t, and nobody changes places. */
  ghost predicate Apart(s: TimerState, s': TimerState, t: TimerId) {
    && (forall x: TimerId :: x != t ==> SameFor(s, s', x))
    && Drop(Timeline(s'.running, 0), t) == Drop(Timeline(s.running, 0), t) && Without<TimerId>(s'.ready, t) == Without<TimerId>(s.ready, t)
  }

  /** Neither counting, nor held, nor about to be delivered. */
  predicate Silent(s: TimerState, t: TimerId) {
    && !At(s.timers, t).active && !At(s.timers, t).paused && !At(s.timers, t).queued
    && t !in Ids(s.running) && t !in s.ready
  }

  /** It counts, and is due in n ticks. */
  predicate DueIn(s: TimerState, t: TimerId, n: nat) {
    At(s.timers, t).active && !At(s.timers, t).paused && t in Ids(s.running) && TicksLeft(s.running, t) == n
  }

  /** Held with n ticks to go. */
  predicate HeldAt(s: TimerState, t: TimerId, n: nat) {
    !At(s.timers, t).active && At(s.timers, t).paused && At(s.timers, t).remaining == n && t !in Ids(s.running)
  }

  // ---------- lists ----------

  lemma InsertElsewhere(l: seq<Entry>, t: TimerId, n: nat, x: TimerId)
    requires t !in Ids(l)
    ensures x != t ==> (x in Ids(Insert(l, t, n)) <==> x in Ids(l)) && TicksLeft(Insert(l, t, n), x) == TicksLeft(l, x)
    ensures t in Ids(Insert(l, t, n)) && TicksLeft(Insert(l, t, n), t) == n
  {
    hide *;
    InsertTicksLeft(l, t, n, x);
  }

  lemma RemoveElsewhere(l: seq<Entry>, t: TimerId, x: TimerId)
    requires multiset(Ids(l))[t] <= 1
    ensures x != t ==> (x in Ids(Remove(l, t)) <==> x in Ids(l)) && TicksLeft(Remove(l, t), x) == TicksLeft(l, x)
    ensures t !in Ids(Remove(l, t))
  {
    RemoveIds(l, t);
    hide *;
    if x != t { RemoveTicksLeft(l, t, x); }
  }

  lemma OnceEach(s: TimerState, t: TimerId)
    requires Linked(s)
    ensures multiset(Ids(s.running))[t] == (if At(s.timers, t).active then 1 else 0)
    ensures multiset(s.ready)[t] == (if At(s.timers, t).queued then 1 else 0)
    ensures t in Ids(s.running) <==> At(s.timers, t).active
    ensures t in s.ready <==> At(s.timers, t).queued
    ensures LifeOk(At(s.timers, t)) && !(At(s.timers, t).active && At(s.timers, t).paused)
  {
    hide Ids;
    var none: multiset<TimerId> := multiset{};
    assert multiset(Ids(s.running))[t] + none[t] == if At(s.timers, t).active then 1 else 0;
    LifeAt(s.timers, t);
  }

  lemma SoundLinks(s: TimerState)
    requires Sound(s)
    ensures Linked(s)
  {
    hide Linked;
  }

  lemma {:induction false} DropMiss(l: seq<Due>, t: TimerId)
    requires forall d :: d in l ==> d.id != t
    ensures Drop(l, t) == l
    decreases |l|
  {
    if l != [] {
      assert l[0] in l;
      assert forall d :: d in l[1..] ==> d in l;
      DropMiss(l[1..], t);
    }
  }

  /** Taking a deadline out again leaves the others as they stood. */
  lemma {:induction false} EnrollThenDrop(l: seq<Due>, d: Due)
    requires forall x :: x in l ==> x.id != d.id
    ensures Drop(Enroll(l, d), d.id) == l
    decreases |l|
  {
    if l != [] && l[0].when <= d.when {
      assert l[0] in l;
      assert forall x :: x in l[1..] ==> x in l;
      EnrollThenDrop(l[1..], d);
    }
  }

  lemma {:induction false} TimelineNames(l: seq<Entry>, now: nat, d: Due)
    requires d in Timeline(l, now)
    ensures d.id in Ids(l)
    decreases |l|
  {
    if d != Timeline(l, now)[0] {
      assert d in Timeline(l, now)[1..];
      TimelineNames(l[1..], now + l[0].delta, d);
    }
  }

  lemma NotOnTimeline(l: seq<Entry>, t: TimerId)
    requires t !in Ids(l)
    ensures forall d :: d in Timeline(l, 0) ==> d.id != t
    ensures Drop(Timeline(l, 0), t) == Timeline(l, 0)
  {
    hide *;
    forall d | d in Timeline(l, 0) ensures d.id != t { TimelineNames(l, 0, d); }
    DropMiss(Timeline(l, 0), t);
  }

  /** Out of the list and in again, or out for good: the other deadlines stand. */
  lemma OthersStand(l: seq<Entry>, t: TimerId, n: nat)
    requires multiset(Ids(l))[t] <= 1
    ensures Drop(Timeline(Remove(l, t), 0), t) == Drop(Timeline(l, 0), t)
    ensures Drop(Timeline(Insert(Remove(l, t), t, n), 0), t) == Drop(Timeline(l, 0), t)
  {
    hide *;
    RemoveElsewhere(l, t, t);
    NotOnTimeline(Remove(l, t), t);
    RemoveKeepsDeadlines(l, t, 0);
    InsertKeepsDeadlines(Remove(l, t), t, n, 0);
    EnrollThenDrop(Timeline(Remove(l, t), 0), Due(t, n));
  }

  lemma InsertedStands(l: seq<Entry>, t: TimerId, n: nat)
    requires t !in Ids(l)
    ensures Drop(Timeline(Insert(l, t, n), 0), t) == Timeline(l, 0) == Drop(Timeline(l, 0), t)
  {
    hide *;
    NotOnTimeline(l, t);
    InsertKeepsDeadlines(l, t, n, 0);
    EnrollThenDrop(Timeline(l, 0), Due(t, n));
  }

  lemma {:induction false} WithoutTwice(ids: seq<TimerId>, t: TimerId)
    requires multiset(ids)[t] <= 1
    ensures t !in Without<TimerId>(ids, t) && Without<TimerId>(Without<TimerId>(ids, t), t) == Without<TimerId>(ids, t)
    ensures forall x: TimerId :: x != t ==> (x in Without<TimerId>(ids, t) <==> x in ids)
  {
    WithoutCounts<TimerId>(ids, t);
    hide Without;
    forall x: TimerId ensures x != t ==> (x in Without<TimerId>(ids, t) <==> x in ids) {
      assert x in Without<TimerId>(ids, t) <==> multiset(Without<TimerId>(ids, t))[x] > 0;
      assert x in ids <==> multiset(ids)[x] > 0;
    }
    assert multiset(Without<TimerId>(ids, t))[t] == 0;
    WithoutAbsent<TimerId>(Without<TimerId>(ids, t), t);
  }

  // ---------- start, pause, stop ----------

  /** One timer's record, place in the countdown and place in the queue are rewritten. */
  lemma RewriteIsApart(s: TimerState, s': TimerState, t: TimerId, r: Timer)
    requires s'.timers == s.timers[t := r]
    requires forall x: TimerId :: x != t ==> (x in Ids(s'.running) <==> x in Ids(s.running)) && TicksLeft(s'.running, x) == TicksLeft(s.running, x)
    requires forall x: TimerId :: x != t ==> (x in s'.ready <==> x in s.ready)
    requires Drop(Timeline(s'.running, 0), t) == Drop(Timeline(s.running, 0), t) && Without<TimerId>(s'.ready, t) == Without<TimerId>(s.ready, t)
    ensures Apart(s, s', t) && At(s'.timers, t) == r
  {
    hide Ids, TicksLeft, Drop, Timeline, Without;
    forall x: TimerId | x != t ensures SameFor(s, s', x) { assert x in Ids(s'.running) <==> x in Ids(s.running); }
  }

  lemma RemovalIsApart(s: TimerState, t: TimerId, r: Timer)
    requires Linked(s)
    ensures Apart(s, s.(timers := s.timers[t := r], running := Remove(s.running, t)), t)
    ensures Apart(s, s.(timers := s.timers[t := r], running := Remove(s.running, t), ready := Without<TimerId>(s.ready, t)), t)
    ensures t !in Ids(Remove(s.running, t)) && t !in Without<TimerId>(s.ready, t)
  {
    hide *;
    OnceEach(s, t);
    OthersStand(s.running, t, 0);
    WithoutTwice(s.ready, t);
    forall x: TimerId
      ensures x != t ==> (x in Ids(Remove(s.running, t)) <==> x in Ids(s.running)) && TicksLeft(Remove(s.running, t), x) == TicksLeft(s.running, x)
    {
      RemoveElsewhere(s.running, t, x);
    }
    RemoveElsewhere(s.running, t, t);
    RewriteIsApart(s, s.(timers := s.timers[t := r], running := Remove(s.running, t)), t, r);
    RewriteIsApart(s, s.(timers := s.timers[t := r], running := Remove(s.running, t), ready := Without<TimerId>(s.ready, t)), t, r);
  }

  lemma RestartIsApart(s: TimerState, t: TimerId, r: Timer, n: nat, ready': seq<TimerId>)
    requires Linked(s) && (ready' == s.ready || ready' == Without<TimerId>(s.ready, t))
    ensures var s' := s.(timers := s.timers[t := r], running := Insert(Remove(s.running, t), t, n), ready := ready');
            Apart(s, s', t) && t in Ids(s'.running) && TicksLeft(s'.running, t) == n
    ensures t !in Without<TimerId>(s.ready, t)
  {
    hide *;
    OnceEach(s, t);
    OthersStand(s.running, t, n);
    WithoutTwice(s.ready, t);
    RemoveElsewhere(s.running, t, t);
    InsertElsewhere(Remove(s.running, t), t, n, t);
    var l := Insert(Remove(s.running, t), t, n);
    forall x: TimerId ensures x != t ==> (x in Ids(l) <==> x in Ids(s.running)) && TicksLeft(l, x) == TicksLeft(s.running, x) {
      RemoveElsewhere(s.running, t, x);
      InsertElsewhere(Remove(s.running, t), t, n, x);
    }
    RewriteIsApart(s, s.(timers := s.timers[t := r], running := l, ready := ready'), t, r);
  }

  /** What the application configured, and what it handed over for the callback. */
  predicate SameSetup(r: Timer, r': Timer) { r'.mode == r.mode && r'.period == r.period && r'.hasCallback == r.hasCallback }
  predicate SameArguments(r: Timer, r': Timer) { r'.context == r.context && r'.value == r.value }

  /** os_timer_stop: the timer neither counts nor is held, and an expiry not yet delivered is dropped. */
  lemma StopOutcome(s: TimerState, t: TimerId)
    requires Sound(s)
    ensures var (s', status) := Stop(s, t);
            && (status == Ok <==> Valid(s, t)) && (status == InvalidArg <==> !Valid(s, t)) && (status != Ok ==> s' == s)
            && (status == Ok ==> Silent(s', t) && Apart(s, s', t) && Valid(s', t) && s'.pools == s.pools
                                 && SameSetup(At(s.timers, t), At(s'.timers, t)) && SameArguments(At(s.timers, t), At(s'.timers, t)))
  {
    SoundLinks(s);
    hide Sound, Linked, Remove, Ids, Without, Apart, TicksLeft;
    if Valid(s, t) { RemovalIsApart(s, t, Stop(s, t).0.timers[t]); }
  }

  lemma Unmoved(s: TimerState, t: TimerId)
    ensures Apart(s, s, t)
  {
  }

  /** os_timer_pause: a running timer is held with exactly what it had left; a delivery it is owed stays owed. */
  lemma PauseOutcome(s: TimerState, t: TimerId)
    requires Sound(s)
    ensures var (s', status) := Pause(s, t); var r := At(s.timers, t);
            && (status == InvalidArg <==> !Valid(s, t)) && (status == NotRunning <==> Valid(s, t) && !r.active && !r.paused)
            && (status == Ok <==> Valid(s, t) && (r.active || r.paused)) && (status != Ok ==> s' == s)
            && (status == Ok ==> HeldAt(s', t, if r.active then TicksLeft(s.running, t) else r.remaining) && Apart(s, s', t) && Valid(s', t)
                                 && s'.pools == s.pools && s'.ready == s.ready && At(s'.timers, t).queued == r.queued
                                 && SameSetup(r, At(s'.timers, t)) && SameArguments(r, At(s'.timers, t)))
  {
    SoundLinks(s);
    OnceEach(s, t);
    Unmoved(s, t);
    hide Sound, Linked, Remove, Ids, Without, Apart, TicksLeft;
    if Valid(s, t) && s.timers[t].active { RemovalIsApart(s, t, Pause(s, t).0.timers[t]); }
  }

  /** os_timer_start and os_timer_restart: due in one whole period - or, when a start resumes a held timer, in
      exactly what it had left. A fresh start drops an expiry not yet delivered; a resume does not. */
  lemma ArmOutcome(s: TimerState, t: TimerId, reload: bool, context: nat, value: nat)
    requires Sound(s)
    ensures var (s', status) := Arm(s, t, reload, context, value); var r := At(s.timers, t); var resumes := r.paused && !reload;
            && (status == Ok <==> Valid(s, t) && r.hasCallback && r.period != 0) && (status == Ok || status == InvalidArg)
            && (status != Ok ==> s' == s)
            && (status == Ok ==> DueIn(s', t, if resumes then r.remaining else r.period) && Apart(s, s', t) && Valid(s', t) && s'.pools == s.pools
                                 && SameSetup(r, At(s'.timers, t)) && At(s'.timers, t).context == context && At(s'.timers, t).value == value
                                 && (if resumes then s'.ready == s.ready && At(s'.timers, t).queued == r.queued
                                     else t !in s'.ready && !At(s'.timers, t).queued))
  {
    SoundLinks(s);
    OnceEach(s, t);
    hide Sound, Linked, Remove, Insert, Ids, Without, Apart, TicksLeft;
    if Arm(s, t, reload, context, value).1 == Ok {
      var s' := Arm(s, t, reload, context, value).0;
      var r := s.timers[t];
      RestartIsApart(s, t, s'.timers[t], if reload || !r.paused then r.period else r.remaining, s'.ready);
    }
  }

  // ---------- a tick ----------

  /** t has fired: its delivery is queued; a periodic timer is next due one whole period on, any other is done. */
  predicate Fired(s: TimerState, s': TimerState, t: TimerId) {
    var r, r' := At(s.timers, t), At(s'.timers, t);
    && r'.queued && t in s'.ready && SameSetup(r, r') && SameArguments(r, r') && r'.paused == r.paused
    && if r.mode == Periodic then DueIn(s', t, r.period) else !r'.active && t !in Ids(s'.running)
  }

  lemma {:induction false} WithoutLast(ids: seq<TimerId>, t: TimerId)
    requires t !in ids
    ensures Without<TimerId>(ids + [t], t) == ids == Without<TimerId>(ids, t)
    decreases |ids|
  {
    if ids != [] {
      assert (ids + [t])[0] == ids[0] && (ids + [t])[1..] == ids[1..] + [t];
      WithoutLast(ids[1..], t);
    }
  }

  lemma ExpireShape(s: TimerState, t: TimerId)
    ensures var s' := Expire(s, t); var r := At(s.timers, t);
            && t in s'.timers && s'.timers == s.timers[t := s'.timers[t]] && s'.pools == s.pools
            && s'.ready == (if r.queued then s.ready else s.ready + [t])
            && s'.running == (if r.mode == Periodic then Insert(s.running, t, r.period) else s.running)
            && SameSetup(r, s'.timers[t]) && SameArguments(r, s'.timers[t]) && s'.timers[t].paused == r.paused && s'.timers[t].queued
            && s'.timers[t].active == (r.active && r.mode == Periodic)
  {
    hide Insert;
  }

  lemma ExpireApart(s: TimerState, t: TimerId)
    requires t !in Ids(s.running) && (At(s.timers, t).queued <==> t in s.ready) && At(s.timers, t).active && !At(s.timers, t).paused
    ensures Apart(s, Expire(s, t), t) && Fired(s, Expire(s, t), t)
  {
    var s' := Expire(s, t);
    var r := At(s.timers, t);
    hide Expire, Insert, Ids, Without, Apart, TicksLeft, Timeline, Drop;
    ExpireShape(s, t);
    InsertElsewhere(s.running, t, r.period, t);
    InsertedStands(s.running, t, r.period);
    if t !in s.ready { WithoutLast(s.ready, t); }
    forall x: TimerId ensures x != t ==> (x in Ids(s'.running) <==> x in Ids(s.running)) && TicksLeft(s'.running, x) == TicksLeft(s.running, x) {
      InsertElsewhere(s.running, t, r.period, x);
    }
    RewriteIsApart(s, s', t, s'.timers[t]);
  }

  lemma FrontIsDue(s: TimerState, due: seq<TimerId>)
    requires due != [] && LinkedDue(s, multiset(due))
    ensures var t := due[0]; At(s.timers, t).active && !At(s.timers, t).paused && t !in Ids(s.running) && t !in due[1..]
    ensures At(s.timers, due[0]).queued <==> due[0] in s.ready
    ensures LinkedDue(Expire(s, due[0]), multiset(due[1..]))
  {
    ExpireLinked(s, due);
    assert multiset(s.ready)[due[0]] == if At(s.timers, due[0]).queued then 1 else 0;
    hide LinkedDue, Expire;
  }

  lemma ApartAt(s: TimerState, s': TimerState, t: TimerId, x: TimerId)
    requires Apart(s, s', t) && x != t
    ensures SameFor(s, s', x)
  {
  }

  lemma {:induction false} ExpireEachOutcome(s: TimerState, due: seq<TimerId>, t: TimerId)
    requires LinkedDue(s, multiset(due))
    ensures if t in due then Fired(s, ExpireEach(s, due), t) else SameFor(s, ExpireEach(s, due), t)
    ensures t in due ==> At(s.timers, t).active
    ensures ExpireEach(s, due).pools == s.pools
    decreases |due|
  {
    hide LinkedDue, Expire, Fired, SameFor, Apart;
    if due == [] {
      Same(s, t);
    } else {
      var s1 := Expire(s, due[0]);
      FrontIsDue(s, due);
      ExpireApart(s, due[0]);
      ExpireShape(s, due[0]);
      ExpireEachOutcome(s1, due[1..], t);
      if t == due[0] {
        FiredStays(s, s1, ExpireEach(s, due), t);
      } else {
        ApartAt(s, s1, due[0], t);
        SameThen(s, s1, ExpireEach(s, due), t);
      }
    }
  }

  lemma Same(s: TimerState, t: TimerId)
    ensures SameFor(s, s, t)
  {
  }

  lemma FiredStays(s: TimerState, s1: TimerState, s': TimerState, t: TimerId)
    requires Fired(s, s1, t) && SameFor(s1, s', t)
    ensures Fired(s, s', t)
  {
  }

  lemma SameThen(s: TimerState, s1: TimerState, s': TimerState, t: TimerId)
    requires SameFor(s, s1, t)
    ensures Fired(s1, s', t) ==> Fired(s, s', t)
    ensures SameFor(s1, s', t) ==> SameFor(s, s', t)
    ensures At(s1.timers, t) == At(s.timers, t)
  {
  }

  /** The due ones among whom no delivery awaits yet, in the order they are due. */
  function Unqueued(tm: map<TimerId, Timer>, due: seq<TimerId>): seq<TimerId>
    decreases |due|
  {
    if due == [] then [] else (if At(tm, due[0]).queued then [] else [due[0]]) + Unqueued(tm, due[1..])
  }

  lemma {:induction false} UnqueuedSame(tm: map<TimerId, Timer>, tm': map<TimerId, Timer>, due: seq<TimerId>)
    requires forall x :: x in due ==> At(tm', x) == At(tm, x)
    ensures Unqueued(tm', due) == Unqueued(tm, due)
    decreases |due|
  {
    if due != [] {
      assert due[0] in due && forall x :: x in due[1..] ==> x in due;
      UnqueuedSame(tm, tm', due[1..]);
    }
  }

  lemma {:induction false} ExpireEachQueues(s: TimerState, due: seq<TimerId>)
    requires LinkedDue(s, multiset(due))
    ensures ExpireEach(s, due).ready == s.ready + Unqueued(s.timers, due)
    decreases |due|
  {
    hide *;
    NextExpires(s, due);
    if due != [] {
      var s1 := Expire(s, due[0]);
      FrontIsDue(s, due);
      ExpireShape(s, due[0]);
      ExpireEachQueues(s1, due[1..]);
      forall x | x in due[1..] ensures At(s1.timers, x) == At(s.timers, x) { AtOther(s.timers, due[0], s1.timers[due[0]], x); }
      UnqueuedSame(s.timers, s1.timers, due[1..]);
      InOrder(s.ready, if At(s.timers, due[0]).queued then [] else [due[0]], Unqueued(s.timers, due[1..]));
    } else {
      assert s.ready + [] == s.ready;
    }
  }

  lemma NextExpires(s: TimerState, due: seq<TimerId>)
    ensures due == [] ==> ExpireEach(s, due) == s && Unqueued(s.timers, due) == []
    ensures due != [] ==> ExpireEach(s, due) == ExpireEach(Expire(s, due[0]), due[1..])
    ensures due != [] ==> Unqueued(s.timers, due) == (if At(s.timers, due[0]).queued then [] else [due[0]]) + Unqueued(s.timers, due[1..])
  {
    hide Expire, At;
  }

  lemma InOrder(a: seq<TimerId>, b: seq<TimerId>, c: seq<TimerId>)
    ensures a + (b + c) == (a + b) + c && a + [] == a
  {
  }

  lemma AtOther(tm: map<TimerId, Timer>, t: TimerId, r: Timer, x: TimerId)
    ensures x != t ==> At(tm[t := r], x) == At(tm, x)
  {
  }

  lemma {:induction false} UnqueuedNone(tm: map<TimerId, Timer>, due: seq<TimerId>)
    ensures Unqueued(tm, due) == [] <==> forall x :: x in due ==> At(tm, x).queued
    decreases |due|
  {
    if due != [] {
      UnqueuedNone(tm, due[1..]);
      assert forall x :: x in due <==> x == due[0] || x in due[1..];
    }
  }

  /** Once each: the due are those with no more than these ticks to go. */
  lemma DueIs(l: seq<Entry>, n: nat, t: TimerId)
    requires multiset(Ids(l))[t] <= 1
    ensures t in Expired(l, n) <==> t in Ids(l) && TicksLeft(l, t) <= n
    ensures t in Ids(Remaining(l, n)) <==> t in Ids(l) && TicksLeft(l, t) > n
    ensures t in Ids(Remaining(l, n)) ==> TicksLeft(Remaining(l, n), t) == TicksLeft(l, t) - n
  {
    IdsAdvance(l, n);
    hide *;
    assert Ids(l) == Expired(l, n) + Ids(Remaining(l, n));
    assert multiset(Ids(l)) == multiset(Expired(l, n)) + multiset(Ids(Remaining(l, n)));
    if t in Ids(l) {
      RemainingTicksLeft(l, n, t);
      assert multiset(Ids(l))[t] == multiset(Expired(l, n))[t] + multiset(Ids(Remaining(l, n)))[t];
      assert t in Expired(l, n) <==> multiset(Expired(l, n))[t] > 0;
      assert t in Ids(Remaining(l, n)) <==> multiset(Ids(Remaining(l, n)))[t] > 0;
    }
  }

  /** os_timer_tick_process, for each timer: one due within these ticks fires, once; any other that counts has
      exactly that many ticks fewer to go; one that does not count is left alone. */
  lemma TickOutcome(s: TimerState, ticks: nat, t: TimerId)
    requires Sound(s) && ticks > 0
    ensures var s' := Tick(s, ticks); var r := At(s.timers, t);
            if r.active && TicksLeft(s.running, t) <= ticks then Fired(s, s', t)
            else At(s'.timers, t) == r && (t in s'.ready <==> t in s.ready) && (r.active ==> DueIn(s', t, TicksLeft(s.running, t) - ticks))
    ensures Tick(s, ticks).pools == s.pools
  {
    hide *;
    var s1, due := Detached(s, ticks), Expired(s.running, ticks);
    SoundLinks(s);
    OnceEach(s, t);
    DetachedIs(s, ticks, t);
    DueIs(s.running, ticks, t);
    ExpireEachOutcome(s1, due, t);
    if t in due {
      FiredFrom(s, s1, Tick(s, ticks), t);
    } else {
      CountsOn(s, s1, Tick(s, ticks), t, ticks);
    }
  }

  function Detached(s: TimerState, ticks: nat): TimerState { s.(running := Remaining(s.running, ticks)) }

  lemma DetachedIs(s: TimerState, ticks: nat, t: TimerId)
    requires Linked(s) && ticks > 0
    ensures var s1 := Detached(s, ticks);
            && Tick(s, ticks) == ExpireEach(s1, Expired(s.running, ticks)) && LinkedDue(s1, multiset(Expired(s.running, ticks)))
            && s1.running == Remaining(s.running, ticks) && s1.timers == s.timers && s1.ready == s.ready && s1.pools == s.pools
            && s1 == s.(running := s1.running)
  {
    IdsAdvance(s.running, ticks);
    hide Linked, LinkedDue, ExpireEach, Expired, Remaining, Ids;
    DetachLinked(s, Detached(s, ticks), Expired(s.running, ticks));
  }

  lemma CountsOn(s: TimerState, s1: TimerState, s': TimerState, t: TimerId, ticks: nat)
    requires s1 == s.(running := s1.running) && SameFor(s1, s', t)
    requires At(s.timers, t).active ==>
      TicksLeft(s.running, t) > ticks && t in Ids(s1.running) && TicksLeft(s1.running, t) == TicksLeft(s.running, t) - ticks
    requires At(s.timers, t).active ==> !At(s.timers, t).paused
    ensures At(s'.timers, t) == At(s.timers, t) && (t in s'.ready <==> t in s.ready)
    ensures At(s.timers, t).active ==> DueIn(s', t, TicksLeft(s.running, t) - ticks)
  {
    hide TicksLeft, Ids;
  }

  lemma FiredFrom(s: TimerState, s1: TimerState, s': TimerState, t: TimerId)
    requires s1 == s.(running := s1.running) && Fired(s1, s', t)
    ensures Fired(s, s', t)
  {
  }

  /** New deliveries join the queue in the order they were due, behind those waiting; the timer task is woken
      exactly when there are any. */
  lemma TickQueues(s: TimerState, ticks: nat)
    requires Sound(s) && ticks > 0
    ensures Tick(s, ticks).ready == s.ready + Unqueued(s.timers, Expired(s.running, ticks))
    ensures TickWakes(s, ticks) <==> Tick(s, ticks).ready != s.ready
  {
    var due := Expired(s.running, ticks);
    var s1 := s.(running := Remaining(s.running, ticks));
    SoundLinks(s);
    IdsAdvance(s.running, ticks);
    hide Sound, Linked, LinkedDue, Ids, Expired, Remaining, ExpireEach, Unqueued;
    DetachLinked(s, s1, due);
    ExpireEachQueues(s1, due);
    UnqueuedNone(s.timers, due);
  }

  // ---------- deferred calls and deliveries ----------

  lemma SubmitIs(s: TimerState, p: PoolId, context: nat, value: nat)
    ensures var (s', status, wake) := SubmitCall(s, p, context, value); var pool := PoolAt(s.pools, p);
            && (status == InvalidArg <==> pool.count == 0 || p !in s.pools)
            && (status == Full <==> p in s.pools && pool.count != 0 && pool.free == [])
            && (status == Ok <==> p in s.pools && pool.count != 0 && pool.free != []) && (status != Ok ==> s' == s && !wake)
            && (status == Ok ==>
                 var e := pool.free[0];
                 && e in s'.timers && s'.timers == s.timers[e := s'.timers[e]] && s'.pools == s.pools[p := pool.(free := pool.free[1..])]
                 && s'.timers[e].context == context && s'.timers[e].value == value && !s'.timers[e].paused
                 && wake == (pool.delay == 0)
                 && s'.ready == (if pool.delay == 0 then s.ready + [e] else s.ready)
                 && s'.running == (if pool.delay == 0 then s.running else Insert(s.running, e, pool.delay))
                 && s'.timers[e].active == (pool.delay != 0) && s'.timers[e].mode == At(s.timers, e).mode
                 && s'.timers[e].queued == (pool.delay == 0 || At(s.timers, e).queued))
  {
    hide Insert;
  }

  /** os_timer_submit: refused for a pool that is none, full when no entry is free; otherwise the call is due after
      exactly the pool's delay, or queued at once, the timer task then being woken. */
  lemma SubmitOutcome(s: TimerState, p: PoolId, context: nat, value: nat)
    requires Sound(s)
    ensures var (s', status, wake) := SubmitCall(s, p, context, value); var pool := PoolAt(s.pools, p);
            && (status == InvalidArg <==> pool.count == 0 || p !in s.pools)
            && (status == Full <==> p in s.pools && pool.count != 0 && pool.free == [])
            && (status == Ok <==> p in s.pools && pool.count != 0 && pool.free != []) && (status != Ok ==> s' == s)
            && (wake <==> status == Ok && pool.delay == 0)
            && (status == Ok ==>
                 var e := pool.free[0];
                 && Apart(s, s', e) && At(s'.timers, e).context == context && At(s'.timers, e).value == value
                 && PoolAt(s'.pools, p) == pool.(free := pool.free[1..]) && (forall q :: q != p ==> PoolAt(s'.pools, q) == PoolAt(s.pools, q))
                 && if pool.delay == 0 then s'.ready == s.ready + [e] && s'.running == s.running && !At(s'.timers, e).active
                    else DueIn(s', e, pool.delay) && s'.ready == s.ready)
  {
    SoundLinks(s);
    SubmitIs(s, p, context, value);
    hide Sound, Linked, SubmitCall, Ids, Insert, Apart, TicksLeft, Without, Timeline, Drop;
    if SubmitCall(s, p, context, value).1 == Ok {
      SubmitApart(s, p, context, value);
    }
  }

  lemma SubmitApart(s: TimerState, p: PoolId, context: nat, value: nat)
    requires Linked(s) && SubmitCall(s, p, context, value).1 == Ok && PoolAt(s.pools, p).free != []
    ensures var e := PoolAt(s.pools, p).free[0]; var s' := SubmitCall(s, p, context, value).0;
            && Apart(s, s', e)
            && (PoolAt(s.pools, p).delay != 0 ==> e in Ids(s'.running) && TicksLeft(s'.running, e) == PoolAt(s.pools, p).delay)
  {
    SubmitIs(s, p, context, value);
    var s' := SubmitCall(s, p, context, value).0;
    var pool := PoolAt(s.pools, p);
    var e := pool.free[0];
    FrontIsFree(s, p);
    OnceEach(s, e);
    hide Linked, SubmitCall, Ids, Insert, Apart, TicksLeft, Without, Timeline, Drop;
    WithoutLast(s.ready, e);
    InsertElsewhere(s.running, e, pool.delay, e);
    InsertedStands(s.running, e, pool.delay);
    forall x: TimerId ensures x != e ==> (x in Ids(s'.running) <==> x in Ids(s.running)) && TicksLeft(s'.running, x) == TicksLeft(s.running, x) {
      InsertElsewhere(s.running, e, pool.delay, x);
    }
    RewriteIsApart(s, s', e, s'.timers[e]);
  }

  /** os_timer_expired_fetch: the oldest delivery, with the arguments its timer was given. The timer goes on as it
      was; a pool entry that is done returns to the end of its pool's free list. */
  lemma FetchOutcome(s: TimerState)
    requires Sound(s)
    ensures var (s', call) := Fetch(s);
            && (call == None <==> s.ready == []) && (s.ready == [] ==> s' == s)
            && (s.ready != [] ==>
                 var t := s.ready[0]; var r := At(s.timers, t); var r' := At(s'.timers, t);
                 && call == Some(Call(r.context, r.value)) && s'.ready == s.ready[1..] && s'.running == s.running && Apart(s, s', t)
                 && !r'.queued && r'.active == r.active && r'.paused == r.paused && r'.remaining == r.remaining && SameSetup(r, r')
                 && (forall q :: PoolAt(s'.pools, q) == PoolAt(s.pools, q).(
                       free := PoolAt(s.pools, q).free + if r.mode == Submit(q) then [t] else []))
                 && (!r.mode.Submit? ==> SameArguments(r, r')))
  {
    SoundLinks(s);
    hide Sound;
    if s.ready != [] {
      FrontIsQueued(s);
      FetchShape(s);
      var t := s.ready[0];
      var s' := Fetch(s).0;
      FetchReturns(s);
      hide Linked, Fetch, Ids, Apart, TicksLeft, Without, Timeline, Drop;
      FrontLeaves(s.ready);
      RewriteIsApart(s, s', t, s'.timers[t]);
    }
  }

  lemma FrontLeaves(ready: seq<TimerId>)
    requires ready != [] && ready[0] !in ready[1..]
    ensures Without<TimerId>(ready[1..], ready[0]) == ready[1..] == Without<TimerId>(ready, ready[0])
    ensures forall x: TimerId :: x != ready[0] ==> (x in ready[1..] <==> x in ready)
  {
    WithoutAbsent<TimerId>(ready[1..], ready[0]);
  }

  lemma FetchReturns(s: TimerState)
    requires Linked(s) && s.ready != []
    ensures var t := s.ready[0]; var r := At(s.timers, t); var s' := Fetch(s).0;
            forall q :: PoolAt(s'.pools, q) == PoolAt(s.pools, q).(free := PoolAt(s.pools, q).free + if r.mode == Submit(q) then [t] else [])
  {
    FrontIsQueued(s);
    FetchShape(s);
    hide Linked, Fetch;
    var r, s' := At(s.timers, s.ready[0]), Fetch(s).0;
    forall q ensures PoolAt(s'.pools, q) == PoolAt(s.pools, q).(free := PoolAt(s.pools, q).free + if r.mode == Submit(q) then [s.ready[0]] else []) {
      assert PoolAt(s.pools, q).free + [] == PoolAt(s.pools, q).free;
    }
  }

  // ---------- whole runs ----------

  predicate Starts(a: Step, t: TimerId) { a.Start? && a.t == t }
  predicate Names(a: Step, t: TimerId) { Starts(a, t) || (a.Halt? && a.t == t) || (a.End? && a.t == t) }

  /** This step delivers t. */
  predicate Takes(s: TimerState, a: Step, t: TimerId) { a.Deliver? && s.ready != [] && s.ready[0] == t }

  lemma {:induction false} ExpireEachHolds(s: TimerState, due: seq<TimerId>)
    ensures s.timers.Keys <= ExpireEach(s, due).timers.Keys
    decreases |due|
  {
    if due != [] {
      ExpireShape(s, due[0]);
      hide Expire;
      ExpireEachHolds(Expire(s, due[0]), due[1..]);
    }
  }

  lemma StepHolds(s: TimerState, a: Step)
    ensures s.timers.Keys <= After(s, a).timers.Keys
  {
    match a
    case Start(_, _, _, _) => hide Insert, Remove, Without;
    case Halt(_) => hide Remove, TicksLeft;
    case End(_) => hide Remove, TicksLeft, Without;
    case Defer(_, _, _) => hide Insert;
    case Pass(ticks) => if ticks > 0 { hide ExpireEach; ExpireEachHolds(s.(running := Remaining(s.running, ticks)), Expired(s.running, ticks)); }
    case Deliver => hide Remove;
  }

  lemma StaysValid(s: TimerState, s': TimerState, t: TimerId)
    requires Valid(s, t) && s.timers.Keys <= s'.timers.Keys && At(s'.timers, t).mode == At(s.timers, t).mode
    ensures Valid(s', t)
  {
  }

  /** The entry a call takes is never an application's timer. */
  lemma EntryIsNoTimer(s: TimerState, p: PoolId, t: TimerId)
    requires Linked(s) && Valid(s, t) && PoolAt(s.pools, p).free != []
    ensures PoolAt(s.pools, p).free[0] != t
  {
    FrontIsFree(s, p);
    hide Linked;
  }

  /** A step that neither names t, nor lets time pass, nor delivers t, leaves it as it is. */
  lemma StepBeside(s: TimerState, a: Step, t: TimerId)
    requires Sound(s) && Valid(s, t) && !Names(a, t) && !a.Pass? && !Takes(s, a, t)
    ensures SameFor(s, After(s, a), t)
  {
    hide Sound, Apart, SameFor, Arm, Pause, Stop, SubmitCall, Fetch;
    Unmoved(s, t);
    Same(s, t);
    match a
    case Start(x, reload, context, value) => ArmOutcome(s, x, reload, context, value); if After(s, a) != s { ApartAt(s, After(s, a), x, t); }
    case Halt(x) => PauseOutcome(s, x); if After(s, a) != s { ApartAt(s, After(s, a), x, t); }
    case End(x) => StopOutcome(s, x); if After(s, a) != s { ApartAt(s, After(s, a), x, t); }
    case Defer(p, context, value) =>
      SubmitOutcome(s, p, context, value);
      SoundLinks(s);
      if After(s, a) != s { EntryIsNoTimer(s, p, t); ApartAt(s, After(s, a), PoolAt(s.pools, p).free[0], t); }
    case Deliver => FetchOutcome(s); if After(s, a) != s { ApartAt(s, After(s, a), s.ready[0], t); }
  }

  lemma FlagsSayAll(s: TimerState, t: TimerId)
    requires Sound(s)
    ensures !At(s.timers, t).active && !At(s.timers, t).paused && !At(s.timers, t).queued ==> Silent(s, t)
    ensures At(s.timers, t).paused ==> HeldAt(s, t, At(s.timers, t).remaining)
    ensures Silent(s, t) ==> !At(s.timers, t).queued
  {
    hide Sound, Linked, Ids;
    SoundLinks(s);
    OnceEach(s, t);
  }

  lemma SilentStep(s: TimerState, a: Step, t: TimerId)
    requires Sound(s) && Valid(s, t) && Silent(s, t) && !Starts(a, t)
    ensures Sound(After(s, a)) && Valid(After(s, a), t) && Silent(After(s, a), t) && !Takes(s, a, t)
  {
    hide Sound, Ids, TicksLeft, Pause, Stop, Tick, After, Apart;
    StepSound(s, a);
    StepHolds(s, a);
    AfterIs(s, a);
    if a.Halt? && a.t == t { PauseOutcome(s, t); }
    else if a.End? && a.t == t { StopOutcome(s, t); }
    else if a.Pass? { if a.ticks > 0 { TickOutcome(s, a.ticks, t); } }
    else { StepBeside(s, a, t); }
    assert At(After(s, a).timers, t).mode == At(s.timers, t).mode;
    StaysValid(s, After(s, a), t);
    FlagsSayAll(After(s, a), t);
  }

  lemma AfterIs(s: TimerState, a: Step)
    ensures a.Halt? ==> After(s, a) == Pause(s, a.t).0
    ensures a.End? ==> After(s, a) == Stop(s, a.t).0
    ensures a.Pass? ==> After(s, a) == Tick(s, a.ticks) && (a.ticks == 0 ==> After(s, a) == s)
    ensures a.Deliver? ==> After(s, a) == Fetch(s).0
  {
    hide Pause, Stop, Fetch, ExpireEach;
  }

  /** A delivery of t somewhere in the run. */
  predicate EverTaken(s: TimerState, steps: seq<Step>, t: TimerId)
    decreases |steps|
  {
    steps != [] && (Takes(s, steps[0], t) || EverTaken(After(s, steps[0]), steps[1..], t))
  }

  /** A stopped timer's callback is never run again, whatever ticks, deliveries and other timers' calls follow,
      until somebody starts it. */
  lemma {:induction false} StoppedStaysSilent(s: TimerState, steps: seq<Step>, t: TimerId)
    requires Sound(s) && Valid(s, t) && Silent(s, t) && forall i :: 0 <= i < |steps| ==> !Starts(steps[i], t)
    ensures !EverTaken(s, steps, t) && Silent(AfterAll(s, steps), t)
    decreases |steps|
  {
    hide Sound, Valid, Silent, After, Takes, Starts;
    if steps != [] {
      assert !Starts(steps[0], t);
      SilentStep(s, steps[0], t);
      var rest := steps[1..];
      assert forall i :: 0 <= i < |rest| ==> rest[i] == steps[i + 1];
      StoppedStaysSilent(After(s, steps[0]), rest, t);
    }
  }

  lemma StopSilences(s: TimerState, t: TimerId, steps: seq<Step>)
    requires Sound(s) && Valid(s, t) && forall i :: 0 <= i < |steps| ==> !Starts(steps[i], t)
    ensures Stop(s, t).1 == Ok && !EverTaken(Stop(s, t).0, steps, t) && Silent(AfterAll(Stop(s, t).0, steps), t)
  {
    hide *;
    StopOutcome(s, t);
    StopSound(s, t, 0);
    StoppedStaysSilent(Stop(s, t).0, steps, t);
  }

  // ---------- a pause keeps the countdown ----------

  predicate StartsOrEnds(a: Step, t: TimerId) { Starts(a, t) || (a.End? && a.t == t) }

  lemma HeldStep(s: TimerState, a: Step, t: TimerId, n: nat)
    requires Sound(s) && Valid(s, t) && HeldAt(s, t, n) && !StartsOrEnds(a, t)
    ensures var s' := After(s, a); Sound(s') && Valid(s', t) && HeldAt(s', t, n) && SameSetup(At(s.timers, t), At(s'.timers, t))
  {
    hide Sound, Ids, TicksLeft, Pause, Tick, Fetch, After, Apart;
    StepSound(s, a);
    StepHolds(s, a);
    AfterIs(s, a);
    if a.Halt? && a.t == t { PauseOutcome(s, t); }
    else if a.Pass? { if a.ticks > 0 { TickOutcome(s, a.ticks, t); } }
    else if Takes(s, a, t) { FetchOutcome(s); }
    else { StepBeside(s, a, t); }
    assert At(After(s, a).timers, t).mode == At(s.timers, t).mode;
    StaysValid(s, After(s, a), t);
    FlagsSayAll(After(s, a), t);
  }

  lemma {:induction false} HeldStands(s: TimerState, steps: seq<Step>, t: TimerId, n: nat)
    requires Sound(s) && Valid(s, t) && HeldAt(s, t, n) && forall i :: 0 <= i < |steps| ==> !StartsOrEnds(steps[i], t)
    ensures var s' := AfterAll(s, steps); Sound(s') && Valid(s', t) && HeldAt(s', t, n) && SameSetup(At(s.timers, t), At(s'.timers, t))
    decreases |steps|
  {
    hide Sound, Valid, HeldAt, After, StartsOrEnds;
    if steps != [] {
      assert !StartsOrEnds(steps[0], t);
      HeldStep(s, steps[0], t, n);
      var rest := steps[1..];
      assert forall i :: 0 <= i < |rest| ==> rest[i] == steps[i + 1];
      HeldStands(After(s, steps[0]), rest, t, n);
    }
  }

  /** Paused with n ticks to go, and started again after any run of ticks and other calls: due in exactly n. */
  lemma PausedResumesWhereItStopped(s: TimerState, t: TimerId, n: nat, steps: seq<Step>, context: nat, value: nat)
    requires Sound(s) && Valid(s, t) && DueIn(s, t, n) && At(s.timers, t).hasCallback && At(s.timers, t).period != 0
    requires forall i :: 0 <= i < |steps| ==> !StartsOrEnds(steps[i], t)
    ensures var s' := AfterAll(Pause(s, t).0, steps);
            HeldAt(s', t, n) && Arm(s', t, false, context, value).1 == Ok && DueIn(Arm(s', t, false, context, value).0, t, n)
  {
    var s1 := Pause(s, t).0;
    hide Sound, Valid, Pause, Arm, AfterAll, StartsOrEnds, Ids, TicksLeft, Apart;
    PauseOutcome(s, t);
    PauseSound(s, t, 0);
    HeldStands(s1, steps, t, n);
    ArmOutcome(AfterAll(s1, steps), t, false, context, value);
  }

  // ---------- a running timer counts the ticks that pass ----------

  function Elapsed(steps: seq<Step>): nat
    decreases |steps|
  {
    if steps == [] then 0 else (if steps[0].Pass? then steps[0].ticks else 0) + Elapsed(steps[1..])
  }

  lemma CountStep(s: TimerState, a: Step, t: TimerId, n: nat)
    requires Sound(s) && Valid(s, t) && DueIn(s, t, n) && !Names(a, t) && (a.Pass? ==> a.ticks < n)
    ensures var s' := After(s, a);
            && Sound(s') && Valid(s', t) && DueIn(s', t, if a.Pass? then n - a.ticks else n)
            && (t in s'.ready ==> t in s.ready) && SameSetup(At(s.timers, t), At(s'.timers, t))
  {
    hide Sound, Ids, TicksLeft, Tick, Fetch, After, Apart;
    StepSound(s, a);
    StepHolds(s, a);
    AfterIs(s, a);
    if a.Pass? { if a.ticks > 0 { TickOutcome(s, a.ticks, t); } }
    else if Takes(s, a, t) { FetchOutcome(s); }
    else { StepBeside(s, a, t); }
    assert At(After(s, a).timers, t).mode == At(s.timers, t).mode;
    StaysValid(s, After(s, a), t);
  }

  lemma {:induction false} CountsDown(s: TimerState, steps: seq<Step>, t: TimerId, n: nat)
    requires Sound(s) && Valid(s, t) && DueIn(s, t, n) && Elapsed(steps) < n && forall i :: 0 <= i < |steps| ==> !Names(steps[i], t)
    ensures var s' := AfterAll(s, steps);
            && Sound(s') && Valid(s', t) && DueIn(s', t, n - Elapsed(steps))
            && (t in s'.ready ==> t in s.ready) && SameSetup(At(s.timers, t), At(s'.timers, t))
    decreases |steps|
  {
    hide Sound, Valid, DueIn, After, Names;
    if steps != [] {
      assert !Names(steps[0], t);
      var n1: nat := if steps[0].Pass? then n - steps[0].ticks else n;
      CountStep(s, steps[0], t, n);
      var rest := steps[1..];
      assert forall i :: 0 <= i < |rest| ==> rest[i] == steps[i + 1];
      CountsDown(After(s, steps[0]), rest, t, n1);
    }
  }

  /** A started timer fires on time and not before: over any run that does not name it, nothing is queued for it
      while fewer ticks have passed than its period, and the tick that completes the period fires it. */
  lemma StartedFiresOnTime(s: TimerState, t: TimerId, context: nat, value: nat, steps: seq<Step>, last: nat)
    requires Sound(s) && Arm(s, t, true, context, value).1 == Ok && forall i :: 0 <= i < |steps| ==> !Names(steps[i], t)
    requires Elapsed(steps) < At(s.timers, t).period <= Elapsed(steps) + last
    ensures var s' := AfterAll(Arm(s, t, true, context, value).0, steps); t !in s'.ready && Fired(s', Tick(s', last), t)
  {
    var s1 := Arm(s, t, true, context, value).0;
    hide Sound, Valid, Arm, AfterAll, Names, Ids, TicksLeft, Apart, Tick, Fired, Elapsed;
    ArmOutcome(s, t, true, context, value);
    ArmSound(s, t, true, context, value, 0);
    CountsDown(s1, steps, t, At(s.timers, t).period);
    TickOutcome(AfterAll(s1, steps), last, t);
  }
}
