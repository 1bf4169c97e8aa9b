/** FourSevenEightBreathingViewModel.kt: inhale 4, hold 7, exhale 8 seconds. */
module FourSevenEightBreathing {
  import opened Sums
  import opened Breathing

  const Phases: seq<(string, int)> := [("Inhale", 4), ("Hold", 7), ("Exhale", 8)]
  const Durations: seq<int> := [Phases[0].1, Phases[1].1, Phases[2].1]

  /** One round of 4-7-8 breathing takes nineteen seconds. */
  lemma CycleIsNineteenSeconds()
    ensures ValidDurations(Durations) && CycleLength(Durations) == 19
  {
    assert Durations == [4, 7, 8];
    SeqSumSnoc([], 4);
    SeqSumSnoc([4], 7);
    SeqSumSnoc([4, 7], 8);
    assert [] + [4] == [4] && [4] + [7] == [4, 7] && [4, 7] + [8] == Durations;
  }

  /** After nineteen seconds of running, the same phase shows the same second again. */
  lemma NineteenSecondsReturn(c: Clock)
    requires ValidClock(Durations, c)
    ensures Run(Durations, c, 19) == c
  {
    CycleIsNineteenSeconds();
    FullCycleReturns(Durations, c);
  }

  class FourSevenEightBreathingViewModel {
    var phaseIndex: int
    var phase: string
    var timeLeft: int
    var isRunning: bool

    function ClockState(): Clock
      reads this
    {
      Clock(phaseIndex, timeLeft)
    }

    /** The shown phase is the table's; a stopped exercise shows the phase's full duration. */
    ghost predicate Valid()
      reads this
    {
      ValidClock(Durations, ClockState()) && phase == Phases[phaseIndex].0
      && (!isRunning ==> timeLeft == Phases[phaseIndex].1)
    }

    constructor()
      ensures Valid()
      ensures phaseIndex == 0 && phase == "Inhale" && timeLeft == 4 && !isRunning
    {
      phaseIndex := 0;
      phase := Phases[0].0;
      timeLeft := Phases[0].1;
      isRunning := false;
    }

    method ToggleBreathing()
      requires Valid()
      modifies this
      ensures Valid()
      ensures isRunning == !old(isRunning) && phaseIndex == old(phaseIndex)
      ensures phase == Phases[phaseIndex].0 && timeLeft == Phases[phaseIndex].1
    {
      isRunning := !isRunning;
      if isRunning {
        StartBreathing();
      } else {
        StopBreathing();
      }
    }

    /** The coroutine's loop up to its first delay: the phase and its duration from the table. */
    method StartBreathing()
      requires 0 <= phaseIndex < |Phases|
      modifies this
      ensures phaseIndex == old(phaseIndex) && isRunning == old(isRunning)
      ensures phase == Phases[phaseIndex].0 && timeLeft == Phases[phaseIndex].1
    {
      var (currentPhase, duration) := Phases[phaseIndex];
      phase := currentPhase;
      timeLeft := duration;
    }

    /** Pause: the current phase restarts from its duration, the index stays. */
    method StopBreathing()
      requires 0 <= phaseIndex < |Phases|
      modifies this
      ensures phaseIndex == old(phaseIndex)
      ensures !isRunning && phase == Phases[phaseIndex].0 && timeLeft == Phases[phaseIndex].1
    {
      isRunning := false;
      var (currentPhase, duration) := Phases[phaseIndex];
      phase := currentPhase;
      timeLeft := duration;
    }

    /** One `delay(1000)` elapsing. A paused exercise does not change. */
    method Tick()
      requires Valid()
      modifies this
      ensures Valid() && isRunning == old(isRunning)
      ensures old(isRunning) ==> ClockState() == Next(Durations, old(ClockState()))
      ensures !old(isRunning) ==> ClockState() == old(ClockState()) && phase == old(phase)
    {
      if !isRunning {
        return;
      }
      if timeLeft > 1 {
        timeLeft := timeLeft - 1;
      } else {
        phaseIndex := (phaseIndex + 1) % |Phases|;
        var (currentPhase, duration) := Phases[phaseIndex];
        phase := currentPhase;
        timeLeft := duration;
      }
    }
  }
}
