/** The kernel lock on several cores and the tickless window (os_critical.c, os_tick.c): core 0 sleeps
    without the lock, so entry from the other cores is closed until the slept ticks are announced. */
module Interlock {
  import opened Sequences

  /** os_critical_enter counts nesting and keeps the interrupt mask; os_critical_multicore_lock does not. */
  datatype Way = Nested | Raw

  /** Where a core stands on its way into a critical section: outside, spinning for the lock, holding it
      and testing the window flag, or inside the body. */
  datatype Pc = Outside | Wanting(way: Way) | Checking(way: Way) | Body(way: Way)

  /** `before` is the mask the outermost enter found; the source keeps it in a local, then in `saved`. */
  datatype Core = Core(pc: Pc, nesting: nat, masked: bool, saved: bool, before: bool)

  /** Core 0's idle pass: no window; window open, perhaps asleep; slept ticks announced. */
  datatype Phase = Awake | Open | Reconciled

  /** A deadline armed or a tick read inside a body: on which core, against which tick count, with how many
      slept ticks not yet in that count. */
  datatype Use = Use(core: nat, count: nat, behind: nat)

  datatype State = State(
    core: map<nat, Core>, lock: Option<nat>, window: bool, ipi: bool,
    phase: Phase, count: nat, behind: nat, uses: seq<Use>)

  function C(s: State, c: nat): Core { if c in s.core then s.core[c] else Core(Outside, 0, false, false, false) }
  function Set(s: State, c: nat, r: Core): State { s.(core := s.core[c := r]) }

  datatype Step =
    | Enter(c: nat, way: Way)
    | Acquire(c: nat)
    | Test(c: nat)
    | Nest(c: nat)
    | Exit(c: nat)
    | Touch(c: nat)
    | Mask(c: nat, on: bool)
    | Raise
    | Sleep(ticks: nat)
    | Announce
    | Lower
    | Tick

  predicate InBody(s: State, c: nat) { C(s, c).pc.Body? }

  predicate Enabled(s: State, a: Step) {
    match a
    case Enter(c, _) => C(s, c).pc.Outside?
    case Acquire(c) => C(s, c).pc.Wanting? && s.lock.None?
    case Test(c) => C(s, c).pc.Checking?
    case Nest(c) => C(s, c).pc == Body(Nested)
    case Exit(c) => InBody(s, c)
    case Touch(c) => InBody(s, c)
    case Mask(c, _) => C(s, c).pc.Outside?
    case Raise => C(s, 0).pc == Body(Nested) && s.phase == Awake
    case Sleep(_) => C(s, 0).pc.Outside? && s.phase == Open
    case Announce => C(s, 0).pc == Body(Raw) && s.phase == Open
    case Lower => C(s, 0).pc == Body(Nested) && (s.phase == Reconciled || (s.phase == Open && s.behind == 0))
    case Tick => C(s, 0).pc == Body(Raw) && s.phase == Awake
  }

  function Apply(s: State, a: Step): State
    requires Enabled(s, a)
  {
    match a
    case Enter(c, way) =>
      Set(s, c, C(s, c).(pc := Wanting(way), masked := way.Nested? || C(s, c).masked, before := C(s, c).masked))
    case Acquire(c) => Set(s, c, C(s, c).(pc := Checking(C(s, c).pc.way))).(lock := Some(c))
    case Test(c) =>
      var r := C(s, c);
      if s.window && c != 0 then Set(s, c, r.(pc := Wanting(r.pc.way))).(lock := None, ipi := true)
      else Set(s, c, r.(pc := Body(r.pc.way), nesting := if r.pc.way.Nested? then 1 else 0, saved := if r.pc.way.Nested? then r.before else r.saved))
    case Nest(c) => Set(s, c, C(s, c).(nesting := C(s, c).nesting + 1))
    case Exit(c) =>
      var r := C(s, c);
      if r.pc.way.Raw? then Set(s, c, r.(pc := Outside)).(lock := None)
      else if r.nesting > 1 then Set(s, c, r.(nesting := r.nesting - 1))
      else Set(s, c, r.(pc := Outside, nesting := 0, masked := r.saved)).(lock := None)
    case Touch(c) => s.(uses := s.uses + [Use(c, s.count, s.behind)])
    case Mask(c, on) => Set(s, c, C(s, c).(masked := on))
    case Raise => s.(window := true, phase := Open)
    case Sleep(ticks) => s.(behind := s.behind + ticks)
    case Announce => s.(count := s.count + s.behind, behind := 0, phase := Reconciled, ipi := false)
    case Lower => s.(window := false, phase := Awake)
    case Tick => s.(count := s.count + 1)
  }

  // ---------- the invariant ----------

  /** The lock's owner is the one core at its test or in a body. */
  ghost predicate Exclusive(s: State) { forall c: nat :: (C(s, c).pc.Checking? || C(s, c).pc.Body?) <==> s.lock == Some(c) }

  /** While the window is open no core but 0 is in a body. */
  ghost predicate Closed(s: State) { s.window ==> forall c: nat :: InBody(s, c) ==> c == 0 }

  /** The flag is up from opening to closing; slept ticks are outstanding only before the announcement. */
  predicate Phased(s: State) { (s.window <==> s.phase != Awake) && (s.behind > 0 ==> s.phase == Open) }

  /** A nesting body is counted, masked, and keeps the mask its outermost enter found. */
  predicate Kept(r: Core) {
    && (r.nesting > 0 <==> r.pc == Body(Nested))
    && (r.pc == Body(Nested) ==> r.masked && r.saved == r.before)
    && (!r.pc.Outside? && r.pc.way.Nested? ==> r.masked)
  }

  ghost predicate Counted(s: State) { forall c: nat :: Kept(C(s, c)) }

  /** Whatever another core armed or read, it did against a count that held every tick slept so far. */
  predicate Current(u: Use) { u.core != 0 ==> u.behind == 0 }

  ghost predicate Sound(s: State) {
    Exclusive(s) && Closed(s) && Phased(s) && Counted(s) && forall i :: 0 <= i < |s.uses| ==> Current(s.uses[i])
  }

  ghost predicate Initial(s: State) {
    && (forall c: nat :: C(s, c).pc.Outside? && C(s, c).nesting == 0)
    && s.lock.None? && !s.window && s.phase == Awake && s.behind == 0 && s.uses == []
  }

  lemma InitialIsSound(s: State)
    requires Initial(s)
    ensures Sound(s)
  {
  }

  /** A body of another core never runs with slept ticks outstanding. */
  lemma RemoteBodyIsCurrent(s: State, c: nat)
    requires Sound(s) && InBody(s, c) && c != 0
    ensures !s.window && s.behind == 0
  {
    assert s.window ==> !InBody(s, c);
  }

  /** One core's record changes, and perhaps the lock. */
  lemma CoreStep(s: State, s': State, c: nat, r: Core)
    requires Sound(s) && s' == Set(s, c, r).(lock := s'.lock, ipi := s'.ipi) && Kept(r)
    requires s.lock.None? || s.lock == Some(c)
    requires if r.pc.Checking? || r.pc.Body? then s'.lock == Some(c) else s'.lock.None?
    requires s.window && c != 0 ==> !r.pc.Body?
    ensures Sound(s')
  {
    forall d: nat ensures Kept(C(s', d)) && ((C(s', d).pc.Checking? || C(s', d).pc.Body?) <==> s'.lock == Some(d)) {
      assert Kept(C(s, d)) && ((C(s, d).pc.Checking? || C(s, d).pc.Body?) <==> s.lock == Some(d));
    }
    forall d: nat | s'.window && InBody(s', d) ensures d == 0 { assert d != c ==> C(s', d) == C(s, d); }
  }

  /** A core outside every body changes nothing but itself. */
  lemma OutsideStep(s: State, c: nat, r: Core)
    requires Sound(s) && !C(s, c).pc.Checking? && !C(s, c).pc.Body? && !r.pc.Checking? && !r.pc.Body? && Kept(r)
    ensures Sound(Set(s, c, r))
  {
    var s' := Set(s, c, r);
    forall d: nat ensures Kept(C(s', d)) && ((C(s', d).pc.Checking? || C(s', d).pc.Body?) <==> s'.lock == Some(d)) {
      assert Kept(C(s, d)) && ((C(s, d).pc.Checking? || C(s, d).pc.Body?) <==> s.lock == Some(d));
    }
    forall d: nat | s'.window && InBody(s', d) ensures d == 0 { assert InBody(s, d); }
  }

  /** No core moves; core 0 may, in its body, change the window. */
  lemma WindowStep(s: State, s': State)
    requires Sound(s) && s'.core == s.core && s'.lock == s.lock && Phased(s')
    requires s'.window && !s.window ==> InBody(s, 0)
    requires s'.uses == s.uses || exists u :: s'.uses == s.uses + [u] && Current(u)
    ensures Sound(s')
  {
    forall d: nat ensures C(s', d) == C(s, d) {}
    assert Exclusive(s') && Counted(s');
    forall d: nat | s'.window && InBody(s', d) ensures d == 0 {
      assert InBody(s, d);
      if !s.window { assert s.lock == Some(d) && s.lock == Some(0); }
    }
  }

  lemma StepIsSound(s: State, a: Step)
    requires Sound(s) && Enabled(s, a)
    ensures Sound(Apply(s, a))
  {
    var s' := Apply(s, a);
    match a
    case Enter(c, way) => assert Kept(C(s, c)); OutsideStep(s, c, s'.core[c]);
    case Acquire(c) => assert Kept(C(s, c)); CoreStep(s, s', c, s'.core[c]);
    case Test(c) => assert Kept(C(s, c)) && s.lock == Some(c); CoreStep(s, s', c, s'.core[c]);
    case Nest(c) => assert Kept(C(s, c)) && s.lock == Some(c) && (s.window ==> InBody(s, c)); CoreStep(s, s', c, s'.core[c]);
    case Exit(c) => assert Kept(C(s, c)) && s.lock == Some(c) && (s.window ==> InBody(s, c)); CoreStep(s, s', c, s'.core[c]);
    case Touch(c) =>
      if c != 0 { RemoteBodyIsCurrent(s, c); }
      assert s'.uses == s.uses + [Use(c, s.count, s.behind)] && Current(Use(c, s.count, s.behind));
      WindowStep(s, s');
    case Mask(c, on) => assert Kept(C(s, c)); OutsideStep(s, c, s'.core[c]);
    case _ => WindowStep(s, s');
  }

  // ---------- runs ----------

  predicate IsRun(s: State, steps: seq<Step>)
    decreases |steps|
  {
    steps == [] || (Enabled(s, steps[0]) && IsRun(Apply(s, steps[0]), steps[1..]))
  }

  function After(s: State, steps: seq<Step>): State
    requires IsRun(s, steps)
    decreases |steps|
  {
    if steps == [] then s else After(Apply(s, steps[0]), steps[1..])
  }

  /** Over all interleavings of any number of cores: no remote body while the window is open, and no
      remote deadline or tick read against a count from before the sleep. */
  lemma {:induction false} EveryRunIsSound(s: State, steps: seq<Step>)
    requires Sound(s) && IsRun(s, steps)
    ensures Sound(After(s, steps))
    decreases |steps|
  {
    if steps != [] {
      StepIsSound(s, steps[0]);
      EveryRunIsSound(Apply(s, steps[0]), steps[1..]);
    }
  }

  // ---------- core 0 is never shut out ----------

  /** Whoever holds the lock during a window and is not core 0 is at its test, and its next step gives the
      lock back and asks core 0 to wake. */
  lemma WindowIsYielded(s: State, c: nat)
    requires Sound(s) && s.window && s.lock == Some(c) && c != 0
    ensures Enabled(s, Test(c)) && Apply(s, Test(c)).lock.None? && Apply(s, Test(c)).ipi && !InBody(Apply(s, Test(c)), c)
  {
    assert C(s, c).pc.Checking? || C(s, c).pc.Body?;
    assert !InBody(s, c);
  }

  /** The outermost exit hands back the interrupt mask its outermost enter found, however deep the nesting. */
  lemma ExitRestoresTheMask(s: State, c: nat)
    requires Sound(s) && C(s, c).pc == Body(Nested) && C(s, c).nesting == 1
    ensures C(Apply(s, Exit(c)), c).masked == C(s, c).before && Apply(s, Exit(c)).lock.None?
  {
    assert Kept(C(s, c));
  }

  /** A core is let in unless it is not core 0 and the window is open, and then it is counted in once; core 0 always
      is. */
  lemma TestAdmits(s: State, c: nat)
    requires Sound(s) && C(s, c).pc.Checking?
    ensures var s' := Apply(s, Test(c)); var r := C(s', c);
            if c == 0 || s.phase == Awake
            then r.pc == Body(C(s, c).pc.way) && s'.lock == Some(c) && s'.ipi == s.ipi
                 && (r.pc.way.Nested? ==> r.nesting == 1 && r.saved == C(s, c).before)
            else r.pc == Wanting(C(s, c).pc.way) && s'.lock.None? && s'.ipi
  {
    assert s.lock == Some(c);
  }

  /** An inner exit undoes its enter and nothing else; a raw one leaves the mask as it is and gives the lock back. */
  lemma ExitUndoes(s: State, c: nat)
    requires Sound(s) && InBody(s, c)
    ensures C(s, c).pc == Body(Nested) ==> Enabled(s, Nest(c)) && Enabled(Apply(s, Nest(c)), Exit(c))
    ensures C(s, c).pc == Body(Nested) ==>
            C(Apply(Apply(s, Nest(c)), Exit(c)), c) == C(s, c) && Apply(Apply(s, Nest(c)), Exit(c)).lock == Some(c)
    ensures C(s, c).pc == Body(Raw) ==>
            var s' := Apply(s, Exit(c)); C(s', c).pc.Outside? && s'.lock.None? && C(s', c).masked == C(s, c).masked
  {
    assert Kept(C(s, c)) && s.lock == Some(c);
  }

  /** The idle pass: raising the flag shuts the others out at once, announcing leaves no slept tick behind, and only
      then is the flag lowered - unless nothing was slept. */
  lemma WindowOutcome(s: State, c: nat, way: Way)
    requires Sound(s)
    ensures Enabled(s, Raise) ==> Apply(s, Raise).window && forall d: nat :: InBody(Apply(s, Raise), d) ==> d == 0
    ensures Enabled(s, Announce) ==> Apply(s, Announce).behind == 0 && Apply(s, Announce).window && Apply(s, Announce).phase == Reconciled
    ensures Enabled(s, Lower) ==> s.window && !Apply(s, Lower).window && Apply(s, Lower).behind == 0
    ensures Enabled(s, Enter(c, way)) ==> C(Apply(s, Enter(c, way)), c).masked == (way.Nested? || C(s, c).masked)
  {
    if Enabled(s, Raise) { StepIsSound(s, Raise); }
    hide Exclusive, Counted;
  }

  // ---------- every tick is counted ----------

  /** The ticks that pass in a step: one in the handler, any number while core 0 sleeps. */
  function Passed(a: Step): nat { match a case Tick => 1 case Sleep(ticks) => ticks case _ => 0 }

  function AllPassed(steps: seq<Step>): nat
    decreases |steps|
  {
    if steps == [] then 0 else Passed(steps[0]) + AllPassed(steps[1..])
  }

  /** Over all interleavings no tick is lost or counted twice: the count and the ticks not yet announced grow by what
      has passed - and once the window is closed again, the count alone has. */
  lemma {:induction false} EveryTickIsCounted(s: State, steps: seq<Step>)
    requires Sound(s) && IsRun(s, steps)
    ensures var s' := After(s, steps); s'.count + s'.behind == s.count + s.behind + AllPassed(steps)
    ensures var s' := After(s, steps); s'.phase != Open ==> s'.count == s.count + s.behind + AllPassed(steps)
    decreases |steps|
  {
    hide Exclusive, Closed, Counted;
    if steps != [] {
      StepIsSound(s, steps[0]);
      OneStepCounts(s, steps[0]);
      hide Apply, Enabled;
      EveryTickIsCounted(Apply(s, steps[0]), steps[1..]);
    }
  }

  lemma OneStepCounts(s: State, a: Step)
    requires Enabled(s, a)
    ensures Apply(s, a).count + Apply(s, a).behind == s.count + s.behind + Passed(a)
  {
  }
}
