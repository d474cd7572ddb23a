/** The guided breathing exercise: a countdown through the four phases inhale,
    hold, exhale and pause, whose lengths come from the chosen technique, counting
    completed rounds. The component's state hooks are the fields of `Breathing`;
    one run of its effect is `Breathing.Tick`. */
module Breathe {

  datatype Phase = Inhale | Hold | Exhale | Pause

  /** The four techniques of the selector, by their keys '4-4-4-4', '4-7-8',
      '6-2-6-2' and '3-3-3-3'. */
  datatype Technique = BoxBreathing | FourSevenEight | CalmBreathing | QuickRelief {
    function Key(): string {
      match this
      case BoxBreathing => "4-4-4-4"
      case FourSevenEight => "4-7-8"
      case CalmBreathing => "6-2-6-2"
      case QuickRelief => "3-3-3-3"
    }

    function Name(): string {
      match this
      case BoxBreathing => "Box Breathing"
      case FourSevenEight => "4-7-8 Technique"
      case CalmBreathing => "Calm Breathing"
      case QuickRelief => "Quick Relief"
    }
  }

  /** The phase length in seconds: inhale, hold (`holdIn`), exhale and pause (`holdOut`). */
  function PhaseDuration(t: Technique, p: Phase): (d: nat)
    ensures 2 <= d <= 8
    ensures t == BoxBreathing ==> d == 4
    ensures t == QuickRelief ==> d == 3
    ensures p == Inhale ==> d == (if t == CalmBreathing then 6 else if t == QuickRelief then 3 else 4)
  {
    match (t, p)
    case (BoxBreathing, _) => 4
    case (FourSevenEight, Inhale) => 4
    case (FourSevenEight, Hold) => 7
    case (FourSevenEight, Exhale) => 8
    case (FourSevenEight, Pause) => 2
    case (CalmBreathing, Inhale) => 6
    case (CalmBreathing, Hold) => 2
    case (CalmBreathing, Exhale) => 6
    case (CalmBreathing, Pause) => 2
    case (QuickRelief, _) => 3
  }

  /** The length of one full round. */
  function RoundLength(t: Technique): nat {
    PhaseDuration(t, Inhale) + PhaseDuration(t, Hold) + PhaseDuration(t, Exhale) + PhaseDuration(t, Pause)
  }

  /** The technique keys name their phase lengths, so a round of '4-7-8' lasts 21 seconds. */
  lemma RoundLengths()
    ensures RoundLength(BoxBreathing) == 16 && RoundLength(FourSevenEight) == 21
    ensures RoundLength(CalmBreathing) == 16 && RoundLength(QuickRelief) == 12
  {
  }

  /** The phase `phaseMap[p].next` names. */
  function Next(p: Phase): (q: Phase)
    ensures q != p
    ensures q == Inhale <==> p == Pause
  {
    match p
    case Inhale => Hold
    case Hold => Exhale
    case Exhale => Pause
    case Pause => Inhale
  }

  /** The position of a phase in the round. */
  function PhaseIndex(p: Phase): (i: nat)
    ensures i < 4
  {
    match p
    case Inhale => 0
    case Hold => 1
    case Exhale => 2
    case Pause => 3
  }

  /** `Next` advances the position by one, wrapping after the pause. */
  lemma NextAdvances(p: Phase)
    ensures PhaseIndex(Next(p)) == (PhaseIndex(p) + 1) % 4
  {
  }

  predicate IsLowerHex(ch: char) {
    '0' <= ch <= '9' || 'a' <= ch <= 'f'
  }

  /** `getPhaseColor`: the circle colour of each phase; no two phases share one. */
  function PhaseColor(p: Phase): (c: string)
    ensures |c| == 7 && c[0] == '#'
    ensures forall i :: 1 <= i < 7 ==> IsLowerHex(c[i])
  {
    match p
    case Inhale => "#7aa466"
    case Hold => "#8db573"
    case Exhale => "#6b9654"
    case Pause => "#5d7a4f"
  }

  /** No two phases share a colour, so the colour tells the phase. */
  lemma PhaseColorsDistinct(p: Phase, q: Phase)
    requires p != q
    ensures PhaseColor(p) != PhaseColor(q)
  {
    assert PhaseColor(p)[1..3] != PhaseColor(q)[1..3] || PhaseColor(p)[3..] != PhaseColor(q)[3..];
  }

  class Breathing {
    var isActive: bool
    var phase: Phase
    var timeLeft: nat
    var cycles: nat
    var technique: Technique
    /** The number of phase changes since the last reset. */
    ghost var transitions: nat

    /** The countdown stays within the current phase, and the phase and the round
        count are the position and the quotient of the number of phase changes. */
    ghost predicate Valid()
      reads this
    {
      && timeLeft <= PhaseDuration(technique, phase)
      && PhaseIndex(phase) == transitions % 4
      && cycles == transitions / 4
    }

    /** The initial state: box breathing, inhale for 4 seconds, paused, no rounds. */
    constructor ()
      ensures Valid()
      ensures !isActive && phase == Inhale && timeLeft == 4 && cycles == 0 && technique == BoxBreathing
    {
      isActive, phase, timeLeft, cycles, technique := false, Inhale, 4, 0, BoxBreathing;
      transitions := 0;
    }

    /** One run of the effect: a running countdown loses a second; a running
        countdown at zero moves to the next phase at its full length, completing a
        round when that phase is inhale; a paused one is left alone. */
    method Tick()
      requires Valid()
      modifies this
      ensures Valid()
      ensures isActive == old(isActive) && technique == old(technique)
      ensures old(isActive) && old(timeLeft) > 0 ==>
                timeLeft == old(timeLeft) - 1 && phase == old(phase) && cycles == old(cycles)
      ensures old(isActive) && old(timeLeft) == 0 ==>
                && phase == Next(old(phase)) && timeLeft == PhaseDuration(technique, phase)
                && cycles == (if phase == Inhale then old(cycles) + 1 else old(cycles))
      ensures !old(isActive) ==> timeLeft == old(timeLeft) && phase == old(phase) && cycles == old(cycles)
    {
      if isActive && timeLeft > 0 {
        timeLeft := timeLeft - 1;
      } else if timeLeft == 0 && isActive {
        var next := Next(phase);
        NextAdvances(phase);
        phase := next;
        timeLeft := PhaseDuration(technique, next);
        if next == Inhale {
          cycles := cycles + 1;
        }
        transitions := transitions + 1;
      }
    }

    /** `toggleBreathing`: start or pause; nothing else changes. */
    method Toggle()
      requires Valid()
      modifies this
      ensures Valid()
      ensures isActive == !old(isActive)
      ensures phase == old(phase) && timeLeft == old(timeLeft) && cycles == old(cycles) && technique == old(technique)
    {
      isActive := !isActive;
    }

    /** `resetBreathing`: pause, back to a full inhale of the current technique, rounds cleared. */
    method Reset()
      requires Valid()
      modifies this
      ensures Valid()
      ensures !isActive && phase == Inhale && timeLeft == PhaseDuration(technique, Inhale) && cycles == 0
      ensures technique == old(technique)
    {
      isActive := false;
      phase := Inhale;
      timeLeft := PhaseDuration(technique, Inhale);
      cycles := 0;
      transitions := 0;
    }

    /** `changeTechnique`: as a reset, under the newly chosen technique. */
    method ChangeTechnique(t: Technique)
      requires Valid()
      modifies this
      ensures Valid()
      ensures !isActive && technique == t && phase == Inhale && timeLeft == PhaseDuration(t, Inhale) && cycles == 0
    {
      isActive := false;
      technique := t;
      phase := Inhale;
      timeLeft := PhaseDuration(t, Inhale);
      cycles := 0;
      transitions := 0;
    }
  }
}
