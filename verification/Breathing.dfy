/**
 * The countdown shared by the three breathing exercises. While an exercise
 * runs, its coroutine shows phase `phaseIndex` for that phase's duration,
 * counting `timeLeft` down to 1 one `delay(1000)` at a time, then moves to
 * the next phase modulo the table size. One second is one Next step.
 */
module Breathing {
  import opened Sums

  /** The countdown state: the current phase and the seconds shown. */
  datatype Clock = Clock(phaseIndex: int, timeLeft: int)

  /** A table of phase durations in seconds: at least one phase, all positive. */
  ghost predicate ValidDurations(durations: seq<int>) {
    |durations| > 0 && forall i :: 0 <= i < |durations| ==> durations[i] > 0
  }

  /** While running, the shown seconds lie between 1 and the phase's duration. */
  ghost predicate ValidClock(durations: seq<int>, c: Clock) {
    ValidDurations(durations) && 0 <= c.phaseIndex < |durations| && 1 <= c.timeLeft <= durations[c.phaseIndex]
  }

  /** The state at the start of phase i. */
  function PhaseStart(durations: seq<int>, i: int): (c: Clock)
    requires ValidDurations(durations) && 0 <= i < |durations|
    ensures ValidClock(durations, c)
  {
    Clock(i, durations[i])
  }

  /** One second: count down, or after the last second enter the next phase at its full duration. */
  function Next(durations: seq<int>, c: Clock): (r: Clock)
    requires ValidClock(durations, c)
    ensures ValidClock(durations, r)
  {
    if c.timeLeft > 1 then Clock(c.phaseIndex, c.timeLeft - 1)
    else PhaseStart(durations, (c.phaseIndex + 1) % |durations|)
  }

  /** n seconds. */
  function Run(durations: seq<int>, c: Clock, n: nat): (r: Clock)
    requires ValidClock(durations, c)
    ensures ValidClock(durations, r)
    decreases n
  {
    if n == 0 then c else Run(durations, Next(durations, c), n - 1)
  }

  /** The seconds one full cycle of phases takes: at least one per phase. */
  function CycleLength(durations: seq<int>): (m: nat)
    requires ValidDurations(durations)
    ensures m >= |durations|
  {
    PrefixSumGrows(durations, 0, |durations|);
    assert durations[..|durations|] == durations;
    SeqSum(durations)
  }

  /** The seconds since the cycle began: earlier phases, then the part of this one already shown. */
  function Elapsed(durations: seq<int>, c: Clock): int
    requires ValidClock(durations, c)
  {
    SeqSum(durations[..c.phaseIndex]) + durations[c.phaseIndex] - c.timeLeft
  }

  /** The sum of the first i + 1 durations adds the i-th to the sum of the first i. */
  lemma PrefixSumStep(durations: seq<int>, i: int)
    requires 0 <= i < |durations|
    ensures SeqSum(durations[..i + 1]) == SeqSum(durations[..i]) + durations[i]
  {
    assert durations[..i + 1][..i] == durations[..i];
  }

  /** With positive durations, a longer prefix has a larger sum. */
  lemma {:induction false} PrefixSumGrows(durations: seq<int>, i: int, j: int)
    requires ValidDurations(durations)
    requires 0 <= i <= j <= |durations|
    ensures SeqSum(durations[..i]) + (j - i) <= SeqSum(durations[..j])
    decreases j - i
  {
    if i < j {
      PrefixSumGrows(durations, i, j - 1);
      PrefixSumStep(durations, j - 1);
    }
  }

  /** Elapsed lies within the cycle. */
  lemma ElapsedInCycle(durations: seq<int>, c: Clock)
    requires ValidClock(durations, c)
    ensures 0 <= Elapsed(durations, c) < CycleLength(durations)
  {
    PrefixSumGrows(durations, 0, c.phaseIndex);
    PrefixSumStep(durations, c.phaseIndex);
    PrefixSumGrows(durations, c.phaseIndex + 1, |durations|);
    assert durations[..|durations|] == durations;
  }

  /** Each second moves Elapsed on by one, back to 0 at the end of the cycle. */
  lemma NextElapsed(durations: seq<int>, c: Clock)
    requires ValidClock(durations, c)
    ensures Elapsed(durations, Next(durations, c))
            == if Elapsed(durations, c) + 1 < CycleLength(durations) then Elapsed(durations, c) + 1 else 0
  {
    var n := |durations|;
    var i := c.phaseIndex;
    var e := Elapsed(durations, c);
    var m := CycleLength(durations);
    PrefixSumStep(durations, i);
    assert e + c.timeLeft == SeqSum(durations[..i + 1]);
    PrefixSumGrows(durations, i + 1, n);
    assert durations[..n] == durations;
    assert SeqSum(durations[..i + 1]) + (n - i - 1) <= m;
    if c.timeLeft > 1 {
      assert e + 1 < m;
    } else if i + 1 < n {
      NextIndex(i, n);
      assert e + 1 < m;
    } else {
      assert e + 1 == m;
      NextIndex(i, n);
    }
  }

  /** Kotlin's `(phaseIndex + 1) % phases.size` for an index in range: the next index, or 0 after the last. */
  lemma NextIndex(i: int, n: int)
    requires 0 <= i < n
    ensures (i + 1) % n == if i + 1 < n then i + 1 else 0
  {
    if i + 1 == n {
      assert (i + 1) % n == n % n == 0;
    }
  }

  /** Elapsed determines the state: two states a cycle apart are the same state. */
  lemma ElapsedDeterminesClock(durations: seq<int>, c: Clock, d: Clock)
    requires ValidClock(durations, c) && ValidClock(durations, d)
    requires Elapsed(durations, c) == Elapsed(durations, d)
    ensures c == d
  {
    if c.phaseIndex < d.phaseIndex {
      PhaseBefore(durations, c, d);
    } else if d.phaseIndex < c.phaseIndex {
      PhaseBefore(durations, d, c);
    }
  }

  /** A state in an earlier phase is earlier in the cycle. */
  lemma PhaseBefore(durations: seq<int>, c: Clock, d: Clock)
    requires ValidClock(durations, c) && ValidClock(durations, d)
    requires c.phaseIndex < d.phaseIndex
    ensures Elapsed(durations, c) < Elapsed(durations, d)
  {
    PrefixSumStep(durations, c.phaseIndex);
    PrefixSumGrows(durations, c.phaseIndex + 1, d.phaseIndex);
  }

  /** After n seconds of at most one cycle, Elapsed has moved on by n, wrapping once. */
  lemma {:induction false} RunElapsed(durations: seq<int>, c: Clock, n: nat)
    requires ValidClock(durations, c)
    requires n <= CycleLength(durations)
    ensures Elapsed(durations, Run(durations, c, n))
            == if Elapsed(durations, c) + n < CycleLength(durations) then Elapsed(durations, c) + n
               else Elapsed(durations, c) + n - CycleLength(durations)
    decreases n
  {
    ElapsedInCycle(durations, c);
    if n > 0 {
      NextElapsed(durations, c);
      RunElapsed(durations, Next(durations, c), n - 1);
    }
  }

  /** A full cycle of seconds brings the exercise back to the same phase and second. */
  lemma FullCycleReturns(durations: seq<int>, c: Clock)
    requires ValidClock(durations, c)
    ensures Run(durations, c, CycleLength(durations)) == c
  {
    ElapsedInCycle(durations, c);
    RunElapsed(durations, c, CycleLength(durations));
    ElapsedDeterminesClock(durations, Run(durations, c, CycleLength(durations)), c);
  }

  /** Running n + 1 seconds is running n seconds and then one more. */
  lemma {:induction false} RunLast(durations: seq<int>, c: Clock, n: nat)
    requires ValidClock(durations, c)
    ensures Run(durations, c, n + 1) == Next(durations, Run(durations, c, n))
    decreases n
  {
    if n > 0 {
      RunLast(durations, Next(durations, c), n - 1);
    }
  }

  /** Within a phase the shown seconds count down from its duration: d, d - 1, ..., 1. */
  lemma {:induction false} Countdown(durations: seq<int>, i: int, k: nat)
    requires ValidDurations(durations) && 0 <= i < |durations| && k < durations[i]
    ensures Run(durations, PhaseStart(durations, i), k) == Clock(i, durations[i] - k)
  {
    if k > 0 {
      Countdown(durations, i, k - 1);
      RunLast(durations, PhaseStart(durations, i), k - 1);
    }
  }

  /** After its duration a phase hands over to the next one, modulo the table size. */
  lemma PhaseCompletes(durations: seq<int>, i: int)
    requires ValidDurations(durations) && 0 <= i < |durations|
    ensures Run(durations, PhaseStart(durations, i), durations[i])
            == PhaseStart(durations, (i + 1) % |durations|)
  {
    Countdown(durations, i, durations[i] - 1);
    RunLast(durations, PhaseStart(durations, i), durations[i] - 1);
  }

  /** Four phases of four seconds each (box and alternate-nostril breathing) make a sixteen-second cycle. */
  lemma FourPhasesOfFour()
    ensures ValidDurations([4, 4, 4, 4]) && CycleLength([4, 4, 4, 4]) == 16
  {
    SeqSumSnoc([], 4);
    SeqSumSnoc([4], 4);
    SeqSumSnoc([4, 4], 4);
    SeqSumSnoc([4, 4, 4], 4);
    assert [] + [4] == [4] && [4] + [4] == [4, 4] && [4, 4] + [4] == [4, 4, 4] && [4, 4, 4] + [4] == [4, 4, 4, 4];
  }

  /** With four phases of four seconds, sixteen seconds of running show the same phase and second again. */
  lemma FourPhasesOfFourReturn(c: Clock)
    requires ValidClock([4, 4, 4, 4], c)
    ensures Run([4, 4, 4, 4], c, 16) == c
  {
    FourPhasesOfFour();
    FullCycleReturns([4, 4, 4, 4], c);
  }
}
