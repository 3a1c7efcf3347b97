/** Properties of the pulse counter's state machine: what one polling period
    does, and what runs of equal samples do. */
module PulseCountingTheory {
  import opened CInt
  import opened PulseCounting

  /** Accumulated high time in milliseconds. */
  function Total(s: CounterState): int
  {
    s.pulseOnTimeS * 1000 + s.pulseOnTime
  }

  /** The range the millisecond part of the on-time keeps. */
  predicate OnTimeInRange(s: CounterState)
  {
    0 <= s.pulseOnTime <= 1000
  }

  /** `t` differs from `s` at most in the two on-time fields. */
  predicate SameExceptOnTime(s: CounterState, t: CounterState)
  {
    t == s.(pulseOnTime := t.pulseOnTime, pulseOnTimeS := t.pulseOnTimeS)
  }

  // ---------------------------------------------------------------------
  // Configuration and reset

  /** Configuring installs the three settings, re-arms the edge baseline
      from the polarity and starts the channel; the count, on-time,
      elapsed time, settled flag and debounced level are kept. */
  lemma ConfigureInstallsAndKeepsCounts(s: CounterState, isCountHight: bool, minPulse: Int32, maxPulse: Int32)
    ensures var t := Configured(s, isCountHight, minPulse, maxPulse);
      t.isCountHight == isCountHight && t.prevState == isCountHight && t.isRising == !isCountHight &&
      t.minPulseSetTime == AsUnsigned(minPulse) && t.maxPulseCounter == AsUnsigned(maxPulse) &&
      t.isStart && t.pinId == s.pinId &&
      t.pulseCounter == s.pulseCounter && t.pulseOnTime == s.pulseOnTime &&
      t.pulseOnTimeS == s.pulseOnTimeS && t.pulseElapsedTime == s.pulseElapsedTime &&
      t.isSetPulse == s.isSetPulse && t.currentState == s.currentState
  {
  }

  /** Resetting sets the count, zeroes the timers, clears the settled flag,
      re-arms the edge baseline and keeps the run status and configuration. */
  lemma ClearResetsAndKeepsRunStatus(s: CounterState, v: Int32)
    ensures var t := Cleared(s, v);
      t.pulseCounter == v && t.pulseOnTime == 0 && t.pulseOnTimeS == 0 &&
      t.pulseElapsedTime == 0 && !t.isSetPulse &&
      t.prevState == s.isCountHight && t.isRising == !s.isCountHight &&
      t.isStart == s.isStart && t.isCountHight == s.isCountHight &&
      t.minPulseSetTime == s.minPulseSetTime && t.maxPulseCounter == s.maxPulseCounter &&
      t.currentState == s.currentState && t.pinId == s.pinId
  {
  }

  /** Every operation keeps the millisecond part of the on-time in range. */
  lemma OnTimeRangeInvariant(s: CounterState, level: bool, v: Int32, high: bool, minPulse: Int32, maxPulse: Int32, pin: Int32)
    requires OnTimeInRange(s)
    ensures OnTimeInRange(Initialized(pin))
    ensures OnTimeInRange(Configured(s, high, minPulse, maxPulse))
    ensures OnTimeInRange(Cleared(s, v))
    ensures OnTimeInRange(CounterTick(s, level))
  {
  }

  // ---------------------------------------------------------------------
  // One polling period

  /** A raw level different from the last sample restarts the debounce
      window, records the edge direction and adopts the new sample; nothing
      else changes. */
  lemma TickOnEdge(s: CounterState, level: bool)
    requires level != s.prevState
    ensures CounterTick(s, level) ==
      s.(pulseElapsedTime := 0, isSetPulse := false, isRising := !s.prevState, prevState := level)
  {
  }

  /** The debounced level and the count change only on the period where an
      unsettled run becomes longer than `minPulseSetTime` (after the
      increment, compared as unsigned); that period marks the run settled. */
  lemma SettlementIsStrict(s: CounterState, level: bool)
    ensures var t := CounterTick(s, level);
      (!s.isSetPulse && t.isSetPulse) <==>
      (level == s.prevState && !s.isSetPulse && AsUnsigned(Inc32(s.pulseElapsedTime)) > s.minPulseSetTime)
    ensures var t := CounterTick(s, level);
      (t.currentState != s.currentState || t.pulseCounter != s.pulseCounter) ==> !s.isSetPulse && t.isSetPulse
  {
  }

  /** On settlement a qualifying run moves the count into [1, max] (always 1
      when max is 0), whatever the count was; a non-qualifying run leaves it. */
  lemma SettlementCount(s: CounterState)
    requires !s.isSetPulse && AsUnsigned(Inc32(s.pulseElapsedTime)) > s.minPulseSetTime
    ensures var t := CounterTick(s, s.prevState);
      t.isSetPulse && t.currentState == s.prevState && t.pulseElapsedTime == 0 &&
      (Qualifies(s) && s.maxPulseCounter >= 1 ==> 1 <= AsUnsigned(t.pulseCounter) <= s.maxPulseCounter) &&
      (Qualifies(s) && s.maxPulseCounter == 0 ==> t.pulseCounter == 1) &&
      (!Qualifies(s) ==> t.pulseCounter == s.pulseCounter)
  {
  }

  /** A settled run whose edge was rising adds exactly one millisecond of
      on-time per period, independently of the counting polarity. */
  lemma OnTimeTick(s: CounterState)
    requires s.isSetPulse && s.isRising && OnTimeInRange(s)
    requires 0 <= s.pulseOnTimeS < INT32_MAX
    ensures var t := CounterTick(s, s.prevState);
      Total(t) == Total(s) + 1 && OnTimeInRange(t) && SameExceptOnTime(s, t) &&
      (s.pulseOnTime >= 1 ==> t.pulseOnTime >= 1)
    ensures CounterTick(s.(isCountHight := !s.isCountHight), s.prevState) ==
      CounterTick(s, s.prevState).(isCountHight := !s.isCountHight)
  {
  }

  // ---------------------------------------------------------------------
  // Runs of samples

  lemma {:induction false} RunAppend(s: CounterState, a: seq<bool>, b: seq<bool>)
    ensures Run(s, a + b) == Run(Run(s, a), b)
    decreases |a|
  {
    if a == [] {
      assert a + b == b;
    } else {
      assert (a + b)[1..] == a[1..] + b;
      RunAppend(CounterTick(s, a[0]), a[1..], b);
    }
  }

  lemma ConstantSplit(level: bool, m: nat, n: nat)
    ensures Constant(level, m + n) == Constant(level, m) + Constant(level, n)
  {
  }

  lemma ConstantCons(level: bool, n: nat)
    requires n >= 1
    ensures Constant(level, n) == [level] + Constant(level, n - 1)
  {
  }

  /** While an unsettled run is not yet longer than `minPulseSetTime`, each
      equal sample only lengthens it by one. */
  lemma {:induction false} HoldBeforeSettle(s: CounterState, k: nat)
    requires !s.isSetPulse
    requires AsUnsigned(s.pulseElapsedTime) + k <= s.minPulseSetTime
    ensures var t := Run(s, Constant(s.prevState, k));
      AsUnsigned(t.pulseElapsedTime) == AsUnsigned(s.pulseElapsedTime) + k &&
      t == s.(pulseElapsedTime := t.pulseElapsedTime)
    decreases k
  {
    if k > 0 {
      ConstantCons(s.prevState, k);
      UnsignedInc(s.pulseElapsedTime);
      var s1 := CounterTick(s, s.prevState);
      assert s1 == s.(pulseElapsedTime := Inc32(s.pulseElapsedTime));
      HoldBeforeSettle(s1, k - 1);
    }
  }

  /** Once a run has settled, further equal samples change only the on-time. */
  lemma {:induction false} SettledHold(s: CounterState, k: nat)
    requires s.isSetPulse
    ensures SameExceptOnTime(s, Run(s, Constant(s.prevState, k)))
    decreases k
  {
    if k > 0 {
      ConstantCons(s.prevState, k);
      var s1 := CounterTick(s, s.prevState);
      assert SameExceptOnTime(s, s1);
      SettledHold(s1, k - 1);
    }
  }

  /** The effect of settling the run `s` is in: the debounced level and, when
      the run qualifies, one count step. */
  ghost predicate SettledFrom(s: CounterState, t: CounterState)
  {
    t.isSetPulse && t.currentState == s.prevState && t.prevState == s.prevState &&
    t.isRising == s.isRising && t.pinId == s.pinId && t.isStart == s.isStart &&
    t.isCountHight == s.isCountHight && t.minPulseSetTime == s.minPulseSetTime &&
    t.maxPulseCounter == s.maxPulseCounter && t.pulseElapsedTime == 0 &&
    t.pulseCounter == (if Qualifies(s) then CountStep(s.pulseCounter, s.maxPulseCounter) else s.pulseCounter)
  }

  /** With `minPulseSetTime` at the largest `uint32_t`, the incremented run
      length (compared as unsigned) can never exceed it: nothing settles. */
  lemma MaximalMinimumNeverSettles(s: CounterState, level: bool)
    requires s.minPulseSetTime == TWO_32 - 1 && !s.isSetPulse
    ensures !CounterTick(s, level).isSetPulse
    ensures CounterTick(s, level).pulseCounter == s.pulseCounter
  {
  }

  /** A level held longer than `minPulseSetTime` settles exactly once: the
      count moves by one count step if the run qualifies, however much longer
      the level is held. */
  lemma {:induction false} HoldSettlesOnce(s: CounterState, k: nat)
    requires !s.isSetPulse && s.minPulseSetTime < TWO_32 - 1
    requires AsUnsigned(s.pulseElapsedTime) <= s.minPulseSetTime < AsUnsigned(s.pulseElapsedTime) + k
    ensures SettledFrom(s, Run(s, Constant(s.prevState, k)))
  {
    var L := s.prevState;
    var n := s.minPulseSetTime - AsUnsigned(s.pulseElapsedTime);
    ConstantSplit(L, n, k - n);
    RunAppend(s, Constant(L, n), Constant(L, k - n));
    HoldBeforeSettle(s, n);
    var m := Run(s, Constant(L, n));
    ConstantCons(L, k - n);
    RunAppend(m, [L], Constant(L, k - n - 1));
    UnsignedInc(m.pulseElapsedTime);
    var settled := CounterTick(m, L);
    assert SettledFrom(s, settled);
    SettledHold(settled, k - n - 1);
  }

  /** On a settled rising run, `k` more equal samples add exactly `k`
      milliseconds (barring overflow of the seconds field), and keep the
      millisecond part in range. */
  lemma {:induction false} OnTimeAccumulates(s: CounterState, k: nat)
    requires s.isSetPulse && s.isRising && OnTimeInRange(s) && 0 <= s.pulseOnTimeS
    requires Total(s) + k <= 1000 * INT32_MAX
    ensures var t := Run(s, Constant(s.prevState, k));
      Total(t) == Total(s) + k && OnTimeInRange(t) && SameExceptOnTime(s, t) &&
      0 <= t.pulseOnTimeS && (s.pulseOnTime >= 1 ==> t.pulseOnTime >= 1)
    decreases k
  {
    if k > 0 {
      ConstantCons(s.prevState, k);
      OnTimeTick(s);
      var s1 := CounterTick(s, s.prevState);
      OnTimeAccumulates(s1, k - 1);
    }
  }

  /** Once the millisecond part is at least 1, every 1000 further periods of
      a settled rising run add exactly one second and leave the milliseconds
      as they were. */
  lemma OneSecondPer1000Periods(s: CounterState)
    requires s.isSetPulse && s.isRising && 1 <= s.pulseOnTime <= 1000 && 0 <= s.pulseOnTimeS
    requires Total(s) + 1000 <= 1000 * INT32_MAX
    ensures var t := Run(s, Constant(s.prevState, 1000));
      t.pulseOnTimeS == s.pulseOnTimeS + 1 && t.pulseOnTime == s.pulseOnTime
  {
    OnTimeAccumulates(s, 1000);
  }

  /** Starting from a zero millisecond part, the first second needs 1001
      periods: after 1000 the seconds are unchanged and the milliseconds read
      1000. */
  lemma FirstSecondNeeds1001Periods(s: CounterState)
    requires s.isSetPulse && s.isRising && s.pulseOnTime == 0 && 0 <= s.pulseOnTimeS
    requires Total(s) + 1001 <= 1000 * INT32_MAX
    ensures Run(s, Constant(s.prevState, 1000)).pulseOnTimeS == s.pulseOnTimeS
    ensures Run(s, Constant(s.prevState, 1000)).pulseOnTime == 1000
    ensures Run(s, Constant(s.prevState, 1001)).pulseOnTimeS == s.pulseOnTimeS + 1
  {
    OnTimeTick(s);
    var s1 := CounterTick(s, s.prevState);
    assert s1.pulseOnTime == 1;
    ConstantCons(s.prevState, 1000);
    ConstantCons(s.prevState, 1001);
    OnTimeAccumulates(s1, 999);
    OneSecondPer1000Periods(s1);
  }

  /** A change to the opposite level that lasts at most `minPulseSetTime + 1`
      samples never settles, whether or not the run it interrupts had
      settled: the debounced level and the count are kept, also after the
      input returns. */
  lemma GlitchRejected(s: CounterState, j: nat)
    requires 1 <= j <= s.minPulseSetTime + 1
    ensures var g := Run(s, Constant(!s.prevState, j));
      g == s.(pulseElapsedTime := g.pulseElapsedTime, isSetPulse := false, isRising := !s.prevState, prevState := !s.prevState) &&
      AsUnsigned(g.pulseElapsedTime) == j - 1
    ensures var r := Run(s, Constant(!s.prevState, j) + [s.prevState]);
      r.currentState == s.currentState && r.pulseCounter == s.pulseCounter && !r.isSetPulse
  {
    var L := s.prevState;
    ConstantCons(!L, j);
    var s1 := CounterTick(s, !L);
    HoldBeforeSettle(s1, j - 1);
    RunAppend(s, Constant(!L, j), [L]);
  }

  /** The glitch is rejected, but the level it interrupted settles again and,
      when that level is the counted one, is counted once more. */
  lemma GlitchRecounts(s: CounterState, j: nat)
    requires s.isSetPulse && s.prevState == s.isCountHight && s.minPulseSetTime < TWO_32 - 1
    requires 1 <= j <= s.minPulseSetTime + 1
    ensures Run(s, Constant(!s.prevState, j) + Constant(s.prevState, s.minPulseSetTime + 2)).pulseCounter ==
      CountStep(s.pulseCounter, s.maxPulseCounter)
  {
    var L := s.prevState;
    GlitchRejected(s, j);
    var g := Run(s, Constant(!L, j));
    RunAppend(s, Constant(!L, j), Constant(L, s.minPulseSetTime + 2));
    ConstantCons(L, s.minPulseSetTime + 2);
    var e := CounterTick(g, L);
    assert e.isRising == L && !e.isSetPulse && e.pulseElapsedTime == 0 && e.prevState == L;
    HoldSettlesOnce(e, s.minPulseSetTime + 1);
  }

  // ---------------------------------------------------------------------
  // The sequence of counter values

  /** The counter after `n` qualifying settlements. */
  function Counts(c: Int32, max: UInt32, n: nat): Int32
    decreases n
  {
    if n == 0 then c else Counts(CountStep(c, max), max, n - 1)
  }

  lemma {:induction false} CountsCompose(c: Int32, max: UInt32, a: nat, b: nat)
    ensures Counts(c, max, a + b) == Counts(Counts(c, max, a), max, b)
    decreases a
  {
    if a > 0 {
      CountsCompose(CountStep(c, max), max, a - 1, b);
    }
  }

  /** After the first increment the count stays in [1, max]: 0 is never seen
      again. */
  lemma {:induction false} CountsInRange(c: Int32, max: UInt32, n: nat)
    requires max >= 1 && n >= 1
    ensures 1 <= AsUnsigned(Counts(c, max, n)) <= max
    decreases n
  {
    if n > 1 {
      CountsInRange(CountStep(c, max), max, n - 1);
    }
  }

  /** From 0, the first `max` increments give 1, 2, ..., max (in the unsigned
      view of the counter). */
  lemma {:induction false} CountsFromZero(c: Int32, max: UInt32, n: nat)
    requires AsUnsigned(c) + n <= max
    ensures AsUnsigned(Counts(c, max, n)) == AsUnsigned(c) + n
    decreases n
  {
    if n > 0 {
      CountsFromZero(CountStep(c, max), max, n - 1);
    }
  }

  /** The sequence of counts from 0 repeats with period `max`:
      1, 2, ..., max, 1, 2, ... */
  lemma CountsWrapAround(max: UInt32, n: nat)
    requires max >= 1 && n >= 1
    ensures Counts(0, max, n + max) == Counts(0, max, n)
  {
    CountsFromZero(0, max, max);
    CountsCompose(0, max, max, 1);
    CountsCompose(0, max, 1, n - 1);
    CountsCompose(0, max, max + 1, n - 1);
    assert Counts(0, max, max + 1) == Counts(0, max, 1);
  }

  // ---------------------------------------------------------------------
  // The first run after configuration

  /** `s` with its current run settled and nothing counted. */
  function AfterFirstSettle(s: CounterState): CounterState
  {
    s.(currentState := s.prevState, pulseElapsedTime := 0, isSetPulse := true)
  }

  /** Right after configuring a fresh channel, holding the level equal to
      the polarity lengthens the run for `minPulseSetTime` samples and
      settles it on the next one, without a count. */
  lemma FirstSettle(pin: Int32, isCountHight: bool, minPulse: Int32, maxPulse: Int32)
    requires AsUnsigned(minPulse) < TWO_32 - 1
    ensures var s := Configured(Initialized(pin), isCountHight, minPulse, maxPulse);
      Run(s, Constant(isCountHight, AsUnsigned(minPulse) + 1)) == AfterFirstSettle(s)
  {
    var s := Configured(Initialized(pin), isCountHight, minPulse, maxPulse);
    var n := AsUnsigned(minPulse);
    ConstantSplit(isCountHight, n, 1);
    RunAppend(s, Constant(isCountHight, n), Constant(isCountHight, 1));
    HoldBeforeSettle(s, n);
    var m := Run(s, Constant(isCountHight, n));
    UnsignedInc(m.pulseElapsedTime);
    assert Constant(isCountHight, 1) == [isCountHight];
    assert !Qualifies(m);
  }

  /** Counting high pulses: a high level present when the channel is
      configured settles as the debounced level but is never counted. */
  lemma InitialHighNotCounted(pin: Int32, minPulse: Int32, maxPulse: Int32, k: nat)
    requires AsUnsigned(minPulse) < TWO_32 - 1
    ensures var s := Configured(Initialized(pin), true, minPulse, maxPulse);
      var t := Run(s, Constant(true, AsUnsigned(minPulse) + 1 + k));
      t.pulseCounter == 0 && t.currentState && t.isSetPulse
  {
    var s := Configured(Initialized(pin), true, minPulse, maxPulse);
    var n := AsUnsigned(minPulse) + 1;
    ConstantSplit(true, n, k);
    RunAppend(s, Constant(true, n), Constant(true, k));
    FirstSettle(pin, true, minPulse, maxPulse);
    SettledHold(AfterFirstSettle(s), k);
  }

  /** Counting low pulses: the baseline makes the first low level look like
      a rising edge, so a channel configured while its input is low settles
      that level without counting it and then accumulates the low time as
      on-time, one millisecond per period. */
  lemma InitialLowTimedAsOnTime(pin: Int32, minPulse: Int32, maxPulse: Int32, k: nat)
    requires AsUnsigned(minPulse) < TWO_32 - 1
    requires k <= 1000 * INT32_MAX
    ensures var s := Configured(Initialized(pin), false, minPulse, maxPulse);
      var t := Run(s, Constant(false, AsUnsigned(minPulse) + 1 + k));
      t.pulseCounter == 0 && !t.currentState && Total(t) == k
  {
    var s := Configured(Initialized(pin), false, minPulse, maxPulse);
    var n := AsUnsigned(minPulse) + 1;
    ConstantSplit(false, n, k);
    RunAppend(s, Constant(false, n), Constant(false, k));
    FirstSettle(pin, false, minPulse, maxPulse);
    OnTimeAccumulates(AfterFirstSettle(s), k);
  }
}
