/** BoxBreathingViewModel.kt: Inhale, Hold, Exhale, Hold, four seconds each. */
module BoxBreathing {
  import opened Breathing

  const Phases: seq<string> := ["Inhale", "Hold", "Exhale", "Hold"]
  const PhaseDuration: int := 4
  const Durations: seq<int> := [PhaseDuration, PhaseDuration, PhaseDuration, PhaseDuration]

  class BoxBreathingViewModel {
    var phaseIndex: int
    var phase: string
    var timeLeft: int
    var isRunning: bool

    /** The countdown part of the state. */
    function ClockState(): Clock
      reads this
    {
      Clock(phaseIndex, timeLeft)
    }

    /** The shown phase is the table's, and a stopped exercise shows a full phase. */
    ghost predicate Valid()
      reads this
    {
      ValidClock(Durations, ClockState()) && phase == Phases[phaseIndex]
      && (!isRunning ==> timeLeft == PhaseDuration)
    }

    constructor()
      ensures Valid()
      ensures phaseIndex == 0 && phase == "Inhale" && timeLeft == 4 && !isRunning
    {
      phaseIndex := 0;
      phase := Phases[0];
      timeLeft := PhaseDuration;
      isRunning := false;
    }

    /** Start or pause; either way the current phase is shown from its full duration. */
    method ToggleBreathing()
      requires Valid()
      modifies this
      ensures Valid()
      ensures isRunning == !old(isRunning) && phaseIndex == old(phaseIndex)
      ensures phase == Phases[phaseIndex] && timeLeft == PhaseDuration
    {
      isRunning := !isRunning;
      if isRunning {
        StartBreathing();
      } else {
        StopBreathing();
      }
    }

    /** The coroutine's loop up to its first delay: show the current phase at its full duration. */
    method StartBreathing()
      requires 0 <= phaseIndex < |Phases|
      modifies this
      ensures phaseIndex == old(phaseIndex) && isRunning == old(isRunning)
      ensures phase == Phases[phaseIndex] && timeLeft == PhaseDuration
    {
      phase := Phases[phaseIndex];
      timeLeft := PhaseDuration;
    }

    /** Pause: the countdown restarts, the phase index stays. */
    method StopBreathing()
      requires 0 <= phaseIndex < |Phases|
      modifies this
      ensures phaseIndex == old(phaseIndex)
      ensures !isRunning && timeLeft == PhaseDuration && phase == Phases[phaseIndex]
    {
      isRunning := false;
      timeLeft := PhaseDuration;
      phase := Phases[phaseIndex];
    }

    /** One `delay(1000)` elapsing. A paused exercise has no coroutine and does not change. */
    method Tick()
      requires Valid()
      modifies this
      ensures Valid() && isRunning == old(isRunning)
      ensures old(isRunning) ==> ClockState() == Next(Durations, old(ClockState()))
      ensures !old(isRunning) ==> ClockState() == old(ClockState()) && phase == old(phase)
    {
      if !isRunning {
        return;
      }
      if timeLeft > 1 {
        timeLeft := timeLeft - 1;
      } else {
        phaseIndex := (phaseIndex + 1) % |Phases|;
        phase := Phases[phaseIndex];
        timeLeft := PhaseDuration;
      }
    }
  }
}
