/**
 * The breathing timer (src/components/BreathingTimer.tsx): a three-phase
 * cycle, inhale 4 s, hold 4 s, exhale 6 s, advanced by a 200 ms tick.
 *
 * The interval callback and the effect that moves to the next phase are
 * folded into one step: `Tick` adds 200 ms and, once the phase's duration is
 * reached, moves to the next phase with the clock reset to 0.
 */
module BreathingTimer {

  datatype Phase = Phase(name: string, duration: nat)

  const Phases: seq<Phase> := [Phase("Inhale", 4000), Phase("Hold", 4000), Phase("Exhale", 6000)]

  /** Milliseconds added per tick. */
  const TickMs: nat := 200

  type PhaseIndex = i: int | 0 <= i < 3

  datatype TimerState = TimerState(phaseIndex: PhaseIndex, elapsed: nat)

  /** One interval tick followed by the phase-advance effect. */
  function Step(t: TimerState): TimerState
  {
    var elapsed := t.elapsed + TickMs;
    if elapsed >= Phases[t.phaseIndex].duration then TimerState((t.phaseIndex + 1) % |Phases|, 0)
    else TimerState(t.phaseIndex, elapsed)
  }

  function Steps(t: TimerState, n: nat): TimerState
    decreases n
  {
    if n == 0 then t else Steps(Step(t), n - 1)
  }

  /** The clock is a multiple of the tick below the current phase's duration. */
  ghost predicate Reachable(t: TimerState)
  {
    t.elapsed < Phases[t.phaseIndex].duration && t.elapsed % TickMs == 0
  }

  /**
   * A tick adds 200 ms while the phase lasts; when the phase's duration is
   * reached the next phase (cyclically) starts from 0.
   */
  lemma StepSpec(t: TimerState)
    ensures t.elapsed + TickMs < Phases[t.phaseIndex].duration ==>
      Step(t) == TimerState(t.phaseIndex, t.elapsed + TickMs)
    ensures t.elapsed + TickMs >= Phases[t.phaseIndex].duration ==>
      Step(t).elapsed == 0 && Step(t).phaseIndex == (t.phaseIndex + 1) % 3
    ensures Reachable(t) ==> Reachable(Step(t))
  {
  }

  /** Phases run Inhale, Hold, Exhale and back to Inhale. */
  lemma PhaseCycle()
    ensures Phases[0].name == "Inhale" && Phases[(0 + 1) % 3].name == "Hold"
    ensures Phases[(1 + 1) % 3].name == "Exhale" && Phases[(2 + 1) % 3].name == "Inhale"
  {
  }

  lemma {:induction false} StepsAdd(t: TimerState, a: nat, b: nat)
    ensures Steps(t, a + b) == Steps(Steps(t, a), b)
    decreases a
  {
    if a > 0 {
      StepsAdd(Step(t), a - 1, b);
    }
  }

  /** Inside a phase, k ticks add k * 200 ms. */
  lemma {:induction false} StepsWithinPhase(t: TimerState, k: nat)
    requires t.elapsed + k * TickMs < Phases[t.phaseIndex].duration
    ensures Steps(t, k) == TimerState(t.phaseIndex, t.elapsed + k * TickMs)
    decreases k
  {
    if k > 0 {
      StepsWithinPhase(Step(t), k - 1);
    }
  }

  /** A phase started from 0 lasts duration / 200 ticks, then the next phase starts from 0. */
  lemma PhaseLasts(i: PhaseIndex)
    ensures Steps(TimerState(i, 0), Phases[i].duration / TickMs) == TimerState((i + 1) % 3, 0)
  {
    var n := Phases[i].duration / TickMs;
    StepsWithinPhase(TimerState(i, 0), n - 1);
    StepsAdd(TimerState(i, 0), n - 1, 1);
  }

  /** From the initial state, 70 ticks (14 s) bring the timer back to the initial state. */
  lemma FullCycle()
    ensures Steps(TimerState(0, 0), 70) == TimerState(0, 0)
  {
    PhaseLasts(0);
    PhaseLasts(1);
    PhaseLasts(2);
    StepsAdd(TimerState(0, 0), 20, 50);
    StepsAdd(TimerState(1, 0), 20, 30);
  }

  /** The timer object: its two state variables, advanced by the tick. */
  class Timer {
    var phaseIndex: PhaseIndex
    var elapsed: nat

    function State(): TimerState
      reads this
    {
      TimerState(phaseIndex, elapsed)
    }

    /** The label on screen. */
    function Label(): (l: string)
      reads this
      ensures l in ["Inhale", "Hold", "Exhale"]
    {
      Phases[phaseIndex].name
    }

    constructor ()
      ensures State() == TimerState(0, 0) && Reachable(State())
    {
      phaseIndex := 0;
      elapsed := 0;
    }

    method Tick()
      modifies this
      ensures State() == Step(old(State()))
      ensures old(Reachable(State())) ==> Reachable(State())
    {
      elapsed := elapsed + TickMs;
      if elapsed >= Phases[phaseIndex].duration {
        phaseIndex := (phaseIndex + 1) % |Phases|;
        elapsed := 0;
      }
    }
  }
}
