/** The Pomodoro timer: a focus period of 25 minutes alternates with a short break
    of 5 minutes, and every fourth completed focus period is followed by a long
    break of 15 minutes instead. The component's state hooks are the fields of
    `Timer`; one run of its effect (a one-second interval firing, or the
    countdown reaching zero) is `Timer.Tick`. */
module Pomodoro {
  import opened Text

  datatype Mode = Focus | ShortBreak | LongBreak

  /** The length of each mode, in seconds. */
  function Duration(m: Mode): (r: nat)
    ensures r > 0 && r % 60 == 0
    ensures m == Focus ==> r == 25 * 60
    ensures m == ShortBreak ==> r == 5 * 60
    ensures m == LongBreak ==> r == 15 * 60
  {
    match m
    case Focus => 25 * 60
    case ShortBreak => 5 * 60
    case LongBreak => 15 * 60
  }

  /** The break that follows a focus period, given the number of focus periods
      completed before it: a long break when the guard `sessions > 0 &&
      (sessions + 1) % 4 === 0` holds. */
  function BreakAfter(sessions: nat): (m: Mode)
    ensures m != Focus
  {
    if sessions > 0 && (sessions + 1) % 4 == 0 then LongBreak else ShortBreak
  }

  /** The `sessions > 0` half of the guard never matters: the break is long exactly
      when the new count of completed focus periods is a multiple of four. */
  lemma LongBreakEveryFourth(sessions: nat)
    ensures BreakAfter(sessions) == LongBreak <==> (sessions + 1) % 4 == 0
  {
  }

  /** Among any four consecutive completed focus periods exactly one earns a long break. */
  lemma OneLongBreakInFour(start: nat)
    ensures |set k | start <= k < start + 4 && BreakAfter(k) == LongBreak| == 1
  {
    var j := start + (3 - start % 4);
    assert (j + 1) % 4 == 0;
    var s := set k | start <= k < start + 4 && BreakAfter(k) == LongBreak;
    assert forall k :: k in s <==> k == j by {
      forall k ensures k in s <==> k == j {
        LongBreakEveryFourth(k);
      }
    }
    assert s == {j};
  }

  /** `formatTime`: whole minutes, a colon and the remaining seconds, each padded
      to at least two digits. */
  function FormatTime(seconds: nat): (r: string)
    ensures |r| >= 5 && r[|r| - 3] == ':'
    ensures AllDigits(r[..|r| - 3]) && AllDigits(r[|r| - 2..])
    ensures seconds < 100 * 60 ==> |r| == 5
  {
    var mins := PadTwo(NatToString(seconds / 60));
    var secs := PadTwo(NatToString(seconds % 60));
    assert |secs| == 2;
    var r := mins + ":" + secs;
    assert r[..|r| - 3] == mins && r[|r| - 2..] == secs;
    r
  }

  /** A padded rendering reads back as the number it renders. */
  lemma PadTwoValue(n: nat)
    ensures AllDigits(PadTwo(NatToString(n))) && DecimalValue(PadTwo(NatToString(n))) == n
  {
    DecimalRoundTrip(n);
    if n < 10 {
      LeadingZero(NatToString(n));
    }
  }

  /** Reading the display back: the minutes times sixty plus the seconds field (always
      below sixty) give the time left. */
  lemma FormatTimeRoundTrip(seconds: nat)
    ensures var r := FormatTime(seconds);
            && DecimalValue(r[|r| - 2..]) < 60
            && DecimalValue(r[..|r| - 3]) * 60 + DecimalValue(r[|r| - 2..]) == seconds
  {
    var r := FormatTime(seconds);
    var mins := PadTwo(NatToString(seconds / 60));
    var secs := PadTwo(NatToString(seconds % 60));
    assert r == mins + ":" + secs;
    assert r[..|r| - 3] == mins && r[|r| - 2..] == secs;
    PadTwoValue(seconds / 60);
    PadTwoValue(seconds % 60);
  }

  class Timer {
    var timeLeft: nat
    var isActive: bool
    var mode: Mode
    var sessions: nat

    /** The countdown never exceeds the length of the current mode. */
    ghost predicate Valid()
      reads this
    {
      timeLeft <= Duration(mode)
    }

    /** The initial state: 25 minutes of focus, paused, no session completed. */
    constructor ()
      ensures Valid()
      ensures timeLeft == Duration(Focus) && !isActive && mode == Focus && sessions == 0
    {
      timeLeft, isActive, mode, sessions := Duration(Focus), false, Focus, 0;
    }

    /** One run of the effect. A running countdown loses a second; a countdown at
        zero stops the timer and moves on: after focus, the completed count grows
        and the matching break starts full; after a break, focus starts full. */
    method Tick()
      requires Valid()
      modifies this
      ensures Valid()
      ensures old(isActive) && old(timeLeft) > 0 ==>
                timeLeft == old(timeLeft) - 1 && isActive && mode == old(mode) && sessions == old(sessions)
      ensures old(timeLeft) == 0 && old(mode) == Focus ==>
                && !isActive && sessions == old(sessions) + 1
                && mode == BreakAfter(old(sessions)) && timeLeft == Duration(mode)
                && (mode == LongBreak <==> sessions % 4 == 0)
      ensures old(timeLeft) == 0 && old(mode) != Focus ==>
                !isActive && sessions == old(sessions) && mode == Focus && timeLeft == Duration(Focus)
      ensures !old(isActive) && old(timeLeft) > 0 ==>
                timeLeft == old(timeLeft) && !isActive && mode == old(mode) && sessions == old(sessions)
    {
      if isActive && timeLeft > 0 {
        timeLeft := timeLeft - 1;
      } else if timeLeft == 0 {
        isActive := false;
        if mode == Focus {
          var next := BreakAfter(sessions);
          LongBreakEveryFourth(sessions);
          sessions := sessions + 1;
          mode := next;
          timeLeft := Duration(next);
        } else {
          mode := Focus;
          timeLeft := Duration(Focus);
        }
      }
    }

    /** `toggleTimer`: start or pause; nothing else changes. */
    method Toggle()
      requires Valid()
      modifies this
      ensures Valid()
      ensures isActive == !old(isActive)
      ensures timeLeft == old(timeLeft) && mode == old(mode) && sessions == old(sessions)
    {
      isActive := !isActive;
    }

    /** `resetTimer`: pause and refill the current mode; the session count is kept. */
    method Reset()
      requires Valid()
      modifies this
      ensures Valid()
      ensures !isActive && timeLeft == Duration(mode)
      ensures mode == old(mode) && sessions == old(sessions)
    {
      isActive := false;
      timeLeft := Duration(mode);
    }

    /** `switchMode`: pause and start the chosen mode full; the session count is kept. */
    method SwitchMode(newMode: Mode)
      requires Valid()
      modifies this
      ensures Valid()
      ensures !isActive && mode == newMode && timeLeft == Duration(newMode)
      ensures sessions == old(sessions)
    {
      isActive := false;
      mode := newMode;
      timeLeft := Duration(newMode);
    }
  }
}
