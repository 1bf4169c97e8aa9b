/**
 * AlternateNostrilBreathingViewModel.kt: inhale left, exhale right, inhale
 * right, exhale left, four seconds each; phase and side come from one entry.
 */
module AlternateNostrilBreathing {
  import opened Breathing

  const Phases: seq<(string, string)> :=
    [("Inhale", "Left"), ("Exhale", "Right"), ("Inhale", "Right"), ("Exhale", "Left")]
  const PhaseDuration: int := 4
  const Durations: seq<int> := [PhaseDuration, PhaseDuration, PhaseDuration, PhaseDuration]

  class AlternateNostrilBreathingViewModel {
    var phaseIndex: int
    var phase: string
    var side: string
    var timeLeft: int
    var isRunning: bool

    function ClockState(): Clock
      reads this
    {
      Clock(phaseIndex, timeLeft)
    }

    /** Phase and side are both those of entry `phaseIndex`. */
    ghost predicate Valid()
      reads this
    {
      ValidClock(Durations, ClockState()) && (phase, side) == Phases[phaseIndex]
      && (!isRunning ==> timeLeft == PhaseDuration)
    }

    constructor()
      ensures Valid()
      ensures phaseIndex == 0 && phase == "Inhale" && side == "Left" && timeLeft == 4 && !isRunning
    {
      phaseIndex := 0;
      phase := Phases[0].0;
      side := Phases[0].1;
      timeLeft := PhaseDuration;
      isRunning := false;
    }

    method ToggleBreathing()
      requires Valid()
      modifies this
      ensures Valid()
      ensures isRunning == !old(isRunning) && phaseIndex == old(phaseIndex)
      ensures (phase, side) == Phases[phaseIndex] && timeLeft == PhaseDuration
    {
      isRunning := !isRunning;
      if isRunning {
        StartBreathing();
      } else {
        StopBreathing();
      }
    }

    /** The coroutine's loop up to its first delay: phase and side from the table, full duration. */
    method StartBreathing()
      requires 0 <= phaseIndex < |Phases|
      modifies this
      ensures phaseIndex == old(phaseIndex) && isRunning == old(isRunning)
      ensures (phase, side) == Phases[phaseIndex] && timeLeft == PhaseDuration
    {
      var (currentPhase, currentSide) := Phases[phaseIndex];
      phase := currentPhase;
      side := currentSide;
      timeLeft := PhaseDuration;
    }

    /** Pause: phase, side and countdown restart from the current entry, which stays. */
    method StopBreathing()
      requires 0 <= phaseIndex < |Phases|
      modifies this
      ensures phaseIndex == old(phaseIndex)
      ensures !isRunning && (phase, side) == Phases[phaseIndex] && timeLeft == PhaseDuration
    {
      isRunning := false;
      var (currentPhase, currentSide) := Phases[phaseIndex];
      phase := currentPhase;
      side := currentSide;
      timeLeft := PhaseDuration;
    }

    /** One `delay(1000)` elapsing. A paused exercise does not change. */
    method Tick()
      requires Valid()
      modifies this
      ensures Valid() && isRunning == old(isRunning)
      ensures old(isRunning) ==> ClockState() == Next(Durations, old(ClockState()))
      ensures !old(isRunning) ==> ClockState() == old(ClockState()) && (phase, side) == old((phase, side))
    {
      if !isRunning {
        return;
      }
      if timeLeft > 1 {
        timeLeft := timeLeft - 1;
      } else {
        phaseIndex := (phaseIndex + 1) % |Phases|;
        var (currentPhase, currentSide) := Phases[phaseIndex];
        phase := currentPhase;
        side := currentSide;
        timeLeft := PhaseDuration;
      }
    }
  }
}
