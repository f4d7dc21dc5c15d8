/** The timing arithmetic of a suppressed window (os_arch_tick_math.h), against the counter it stands
    for: a SysTick that counts down cycle by cycle and pends its interrupt on reaching zero. */
module TickMath {

  const WORD: nat := 0x1_0000_0000
  const INT64_MAX: int := 0x7FFF_FFFF_FFFF_FFFF

  // ---------- the two functions ----------

  /** A counter standing at zero has the new period's whole phase ahead. */
  function Phase(cvr: nat, period: nat): nat { if cvr == 0 then period else cvr }

  /** os_arch_tick_wraps, truncation to 32 bits included. */
  function TickWraps(reference: nat, start: nat, end: nat, period: nat): nat
    requires 0 < period
  {
    var whole: int := reference + Phase(end, period) - Phase(start, period);
    if whole <= 0 then 0 else (whole + period / 2) / period % WORD
  }

  /** os_arch_tick_remaining. */
  function TickRemaining(elapsed: nat, head: nat, period: nat): int
    requires 0 < period
  {
    if elapsed < head then head - elapsed else period - (elapsed - head) % period
  }

  // ---------- the counter, one cycle at a time ----------

  /** The register and the boundaries passed so far. */
  datatype Counter = Counter(cvr: nat, boundaries: nat)

  /** One cycle: reload from zero, and a boundary on the transition to zero. */
  function Cycle(c: Counter, period: nat): Counter
    requires 0 < period
  {
    var next := if c.cvr == 0 then period - 1 else c.cvr - 1;
    Counter(next, if next == 0 then c.boundaries + 1 else c.boundaries)
  }

  function Run(c: Counter, period: nat, cycles: nat): Counter
    requires 0 < period
    decreases cycles
  {
    if cycles == 0 then c else Run(Cycle(c, period), period, cycles - 1)
  }

  // ---------- what stepping comes to ----------

  lemma {:induction false} RunStaysInPeriod(c: Counter, period: nat, cycles: nat)
    requires 0 < period && c.cvr < period
    ensures Run(c, period, cycles).cvr < period && Run(c, period, cycles).boundaries >= c.boundaries
    decreases cycles
  {
    if cycles > 0 {
      RunStaysInPeriod(Cycle(c, period), period, cycles - 1);
    }
  }

  /** Each boundary is worth one period, the phases make up the rest. */
  lemma {:induction false} RunAccounts(c: Counter, period: nat, cycles: nat)
    requires 0 < period && c.cvr < period
    ensures var e := Run(c, period, cycles);
            cycles + Phase(e.cvr, period) - Phase(c.cvr, period) == (e.boundaries - c.boundaries) * period
    decreases cycles
  {
    if cycles > 0 {
      var d := Cycle(c, period);
      RunAccounts(d, period, cycles - 1);
      var e := Run(d, period, cycles - 1);
      if d.boundaries == c.boundaries + 1 {
        Distribute(e.boundaries - d.boundaries, period);
      }
    }
  }

  lemma Distribute(n: int, period: nat)
    ensures (n + 1) * period == n * period + period
  {
  }

  lemma {:induction false} RunJoins(c: Counter, period: nat, a: nat, b: nat)
    requires 0 < period
    ensures Run(c, period, a + b) == Run(Run(c, period, a), period, b)
    decreases a
  {
    if a > 0 {
      RunJoins(Cycle(c, period), period, a - 1, b);
    }
  }

  // ---------- counting boundaries from two samples ----------

  /** The rounding error a reference may carry: within half a period on either side, the upper half open. */
  predicate Close(error: int, period: nat) { -(period / 2) <= error < period - period / 2 }

  lemma RoundingIsExact(n: nat, error: int, period: nat)
    requires 0 < period && Close(error, period)
    ensures (n * period + error + period / 2) / period == n
  {
    var low := error + period / 2;
    QuotientOf(n, low, period);
    assert n * period + low == n * period + error + period / 2;
  }

  lemma QuotientOf(n: nat, low: nat, period: nat)
    requires low < period
    ensures (n * period + low) / period == n
  {
    if (n * period + low) / period != n {
      var q := (n * period + low) / period;
      assert q * period <= n * period + low < (q + 1) * period;
      if q > n { MoreTimes(n + 1, q, period); } else { MoreTimes(q + 1, n, period); }
    }
  }

  lemma {:induction false} MoreTimes(a: nat, b: nat, period: nat)
    requires a <= b
    ensures a * period <= b * period
    decreases b - a
  {
    if a < b {
      MoreTimes(a, b - 1, period);
      Distribute(b - 1, period);
    }
  }

  /** The rounded quotient names n only when the error is close. */
  lemma RoundingNeedsClose(n: nat, error: int, period: nat)
    requires 0 < period && n * period + error > 0 && (n * period + error + period / 2) / period == n
    ensures Close(error, period)
  {
    var x := n * period + error + period / 2;
    assert n * period <= x < (n + 1) * period;
    Distribute(n, period);
  }

  /** The rounded, truncated quotient names n exactly when the error is close, or too short for n = 0. */
  lemma CountIsExact(n: nat, error: int, period: nat, whole: int)
    requires 0 < period && whole == n * period + error && n < WORD
    requires whole > 0 ==> (whole + period / 2) / period < WORD
    ensures (if whole <= 0 then 0 else (whole + period / 2) / period % WORD) == n
            <==> (Close(error, period) || (n == 0 && error < 0))
  {
    if whole <= 0 {
      if n > 0 { MoreTimes(1, n, period); }
    } else {
      var q := (whole + period / 2) / period;
      if Close(error, period) { RoundingIsExact(n, error, period); }
      if q == n { RoundingNeedsClose(n, error, period); }
      Untruncated(q);
    }
  }

  lemma Untruncated(q: nat)
    requires q < WORD
    ensures q % WORD == q
  {
  }

  /** A quotient is at most that of anything larger, and one period more counts one. */
  lemma QuotientFits(whole: nat, reference: nat, period: nat)
    requires 0 < period && whole < reference + period
    ensures (whole + period / 2) / period <= reference / period + 2
  {
    var q, r := reference / period, (whole + period / 2) / period;
    assert whole + period / 2 < (q + 3) * period by { Distribute(q, period); Distribute(q + 1, period); Distribute(q + 2, period); }
    if r > q + 2 { MoreTimes(q + 3, r, period); }
  }

  /** The wrap count is the number of boundaries the stepped counter passed exactly when the reference is
      off by less than half a period - for a window that crossed none, by less than half a period too
      long: too short a reference is then no error at all. */
  lemma WrapsAreExact(start: nat, period: nat, cycles: nat, reference: nat)
    requires 0 < period <= WORD && start < period && reference + period <= INT64_MAX && reference / period + 2 < WORD
    requires Run(Counter(start, 0), period, cycles).boundaries < WORD
    ensures var e := Run(Counter(start, 0), period, cycles); var error := reference - cycles;
            TickWraps(reference, start, e.cvr, period) == e.boundaries
            <==> (Close(error, period) || (e.boundaries == 0 && error < 0))
  {
    hide Run, Close;
    var e := Run(Counter(start, 0), period, cycles);
    RunAccounts(Counter(start, 0), period, cycles);
    RunStaysInPeriod(Counter(start, 0), period, cycles);
    var whole: int := reference + Phase(e.cvr, period) - Phase(start, period);
    if whole > 0 { QuotientFits(whole, reference, period); }
    CountIsExact(e.boundaries, reference - cycles, period, whole);
  }

  /** The documented bound: a combined sampling error below half a period is always close enough. */
  lemma BelowHalfIsClose(error: int, period: nat)
    requires 0 < period && -(period as int) < 2 * error < period
    ensures Close(error, period)
  {
  }

  /** The bound is sharp for every period: at half a period too long (rounded up) the count is one boundary
      too high. */
  lemma HalfAPeriodIsTooMuch(start: nat, period: nat, cycles: nat)
    requires 0 < period <= WORD && start < period && Run(Counter(start, 0), period, cycles).boundaries + 1 < WORD
    ensures var e := Run(Counter(start, 0), period, cycles);
            TickWraps(cycles + period - period / 2, start, e.cvr, period) == e.boundaries + 1
  {
    hide Run;
    var e := Run(Counter(start, 0), period, cycles);
    RunAccounts(Counter(start, 0), period, cycles);
    RunStaysInPeriod(Counter(start, 0), period, cycles);
    var n := e.boundaries;
    var whole: int := cycles + period - period / 2 + Phase(e.cvr, period) - Phase(start, period);
    assert whole + period / 2 == (n + 1) * period by { Distribute(n, period); }
    MoreTimes(1, n + 1, period);
    QuotientOf(n + 1, 0, period);
    Untruncated(n + 1);
  }

  // ---------- the phase after an early wake ----------

  /** A multiple of the period taken off leaves the rest. */
  lemma RestOf(n: nat, x: nat, low: nat, period: nat)
    requires 0 < period && low < period && x == n * period + low
    ensures x % period == low
  {
    QuotientOf(n, low, period);
  }

  /** What is reloaded after the window is the phase a counter stepped through the window would show, so
      the first interval after it ends on the original grid. */
  lemma RemainingIsThePhase(start: nat, period: nat, elapsed: nat)
    requires 0 < period && start < period
    ensures TickRemaining(elapsed, Phase(start, period), period) == Phase(Run(Counter(start, 0), period, elapsed).cvr, period)
  {
    var head := Phase(start, period);
    var e := Run(Counter(start, 0), period, elapsed);
    RunAccounts(Counter(start, 0), period, elapsed);
    RunStaysInPeriod(Counter(start, 0), period, elapsed);
    var n := e.boundaries;
    var phase := Phase(e.cvr, period);
    assert elapsed + phase - head == n * period;
    if elapsed < head {
      if n > 0 { MoreTimes(1, n, period); }
    } else {
      assert n > 0;
      assert elapsed - head == (n - 1) * period + (period - phase) by { Distribute(n - 1, period); }
      RestOf(n - 1, elapsed - head, period - phase, period);
    }
  }

  /** A counter restarted with that phase passes its boundaries exactly when the undisturbed one does. */
  lemma GridIsKept(start: nat, period: nat, elapsed: nat, after: nat)
    requires 0 < period && start < period
    ensures var restarted := Counter(TickRemaining(elapsed, Phase(start, period), period) % period, Run(Counter(start, 0), period, elapsed).boundaries);
            0 <= restarted.cvr && Run(restarted, period, after) == Run(Counter(start, 0), period, elapsed + after)
  {
    RemainingIsThePhase(start, period, elapsed);
    RunStaysInPeriod(Counter(start, 0), period, elapsed);
    RunJoins(Counter(start, 0), period, elapsed, after);
    var e := Run(Counter(start, 0), period, elapsed);
    if e.cvr == 0 { QuotientOf(1, 0, period); } else { QuotientOf(0, e.cvr, period); }
  }
}
