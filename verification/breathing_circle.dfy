/**
 The guided breathing circle (src/components/BreathingExercise/BreathingCircle.tsx).
 Its two intervals are two kinds of tick applied to an explicit session
 record: a phase tick walks in -> hold -> out -> rest -> in and counts a
 cycle on the wrap, a second tick runs the countdown. Ticks act only while
 the circle is active and not completed; deactivating it restores the
 initial record. `duration` is in minutes, as the component's prop.
 */
module BreathingCircle {
  import Text

  datatype Phase = In | Hold | Out | Rest

  /** The phase after `p` in the breathing cycle. */
  function NextPhase(p: Phase): (q: Phase)
    ensures q != p
    ensures p == In ==> q == Hold
    ensures p == Hold ==> q == Out
    ensures p == Out ==> q == Rest
    ensures q == In <==> p == Rest
  {
    match p
    case In => Hold
    case Hold => Out
    case Out => Rest
    case Rest => In
  }

  /** The 4-4-6-2 pattern. */
  function PhaseSeconds(p: Phase): nat {
    match p
    case In => 4
    case Hold => 4
    case Out => 6
    case Rest => 2
  }

  /** The length of one cycle as the cycle count assumes it. */
  const SecondsPerCycle := 16

  /** `getPhaseTime`: the phase's length in milliseconds. */
  function PhaseTimeMs(p: Phase): (ms: nat)
    ensures ms == 1000 * PhaseSeconds(p)
    ensures 2000 <= ms <= 6000
  {
    match p
    case In => 4000
    case Hold => 4000
    case Out => 6000
    case Rest => 2000
  }

  function PhaseAfter(p: Phase, n: nat): Phase
    decreases n
  {
    if n == 0 then p else PhaseAfter(NextPhase(p), n - 1)
  }

  /** Milliseconds spent in the `n` phases starting with `p`. */
  function TimeOfPhases(p: Phase, n: nat): nat
    decreases n
  {
    if n == 0 then 0 else PhaseTimeMs(p) + TimeOfPhases(NextPhase(p), n - 1)
  }

  /** Four phase steps lead back to the same phase, through each phase once,
      and their lengths add up to the 16 s cycle the cycle count divides by. */
  lemma CycleClosesAfterFour(p: Phase)
    ensures PhaseAfter(p, 4) == p
    ensures {PhaseAfter(p, 0), PhaseAfter(p, 1), PhaseAfter(p, 2), PhaseAfter(p, 3)} == {In, Hold, Out, Rest}
    ensures TimeOfPhases(p, 4) == 1000 * SecondsPerCycle
  {
  }

  /** `totalCycles`: the number of whole 16 s cycles in the session. */
  function TotalCycles(duration: nat): (t: nat)
    ensures SecondsPerCycle * t <= duration * 60 < SecondsPerCycle * (t + 1)
  {
    (duration * 60) / SecondsPerCycle
  }

  /** The default two-minute session has seven cycles. */
  lemma DefaultSessionHasSevenCycles()
    ensures TotalCycles(2) == 7
  {
  }

  datatype Session = Session(
    phase: Phase,
    count: nat,
    timeRemaining: int,
    isCompleted: bool,
    isActive: bool)

  /** The record on mount, and after every deactivation. */
  function Fresh(duration: nat): (s: Session)
    ensures s.phase == Rest && s.count == 0 && s.timeRemaining == duration * 60
    ensures !s.isCompleted && !s.isActive
  {
    Session(Rest, 0, duration * 60, false, false)
  }

  /** The intervals exist exactly while this holds. */
  predicate Running(s: Session) {
    s.isActive && !s.isCompleted
  }

  /** A tick's new record and whether it called `onComplete`. */
  datatype TickResult = TickResult(session: Session, notified: bool)

  /** The phase interval. Only the rest -> in edge counts a cycle, and the
      count reaching the total completes the session. */
  function PhaseTick(s: Session, totalCycles: nat): (r: TickResult)
    ensures !Running(s) ==> r == TickResult(s, false)
    ensures Running(s) ==> r.session.phase == NextPhase(s.phase)
    ensures Running(s) && s.phase != Rest ==> r == TickResult(s.(phase := NextPhase(s.phase)), false)
    ensures Running(s) && s.phase == Rest ==>
              && r.session.count == s.count + 1
              && (r.session.isCompleted <==> s.count + 1 >= totalCycles)
              && r.notified == r.session.isCompleted
    ensures r.session.timeRemaining == s.timeRemaining && r.session.isActive == s.isActive
  {
    if !Running(s) then TickResult(s, false)
    else match s.phase
      case In => TickResult(s.(phase := Hold), false)
      case Hold => TickResult(s.(phase := Out), false)
      case Out => TickResult(s.(phase := Rest), false)
      case Rest =>
        var newCount := s.count + 1;
        var done := newCount >= totalCycles;
        TickResult(s.(phase := In, count := newCount, isCompleted := done), done)
  }

  /** The countdown interval: one second less, clamped at zero, and reaching
      zero completes the session. */
  function SecondTick(s: Session): (r: TickResult)
    ensures !Running(s) ==> r == TickResult(s, false)
    ensures Running(s) && s.timeRemaining > 1 ==>
              r == TickResult(s.(timeRemaining := s.timeRemaining - 1), false)
    ensures Running(s) && s.timeRemaining <= 1 ==>
              r == TickResult(s.(timeRemaining := 0, isCompleted := true), true)
    ensures r.session.phase == s.phase && r.session.count == s.count
  {
    if !Running(s) then TickResult(s, false)
    else
      var newTime := s.timeRemaining - 1;
      if newTime <= 0 then TickResult(s.(timeRemaining := 0, isCompleted := true), true)
      else TickResult(s.(timeRemaining := newTime), false)
  }

  /** A change of the `isActive` prop: activation starts at the in phase
      (unless completed), deactivation runs the reset effect. */
  function SetActive(s: Session, active: bool, duration: nat): (r: Session)
    ensures r.isActive == active
    ensures !active && s.isActive ==> r == Fresh(duration)
    ensures active == s.isActive ==> r == s
    ensures active && !s.isActive && !s.isCompleted ==> r == s.(isActive := true, phase := In)
  {
    if active == s.isActive then s
    else if !active then Fresh(duration)
    else if s.isCompleted then s.(isActive := true)
    else s.(isActive := true, phase := In)
  }

  datatype Tick = PhaseInterval | SecondInterval

  function ApplyTick(s: Session, t: Tick, duration: nat): TickResult {
    match t
    case PhaseInterval => PhaseTick(s, TotalCycles(duration))
    case SecondInterval => SecondTick(s)
  }

  /** The record after a run of ticks with no change of `isActive`. */
  function RunTicks(s: Session, ticks: seq<Tick>, duration: nat): Session
    decreases |ticks|
  {
    if ticks == [] then s
    else RunTicks(ApplyTick(s, ticks[0], duration).session, ticks[1..], duration)
  }

  /** The states the circle can be in, for a session of `duration` minutes:
      the countdown stays within the session, an inactive circle is fresh, a
      completed one has run out of cycles or of time, and the count never
      passes the total (a zero-cycle session stops at its first wrap). */
  predicate Valid(s: Session, duration: nat) {
    var total := TotalCycles(duration);
    && 0 <= s.timeRemaining <= duration * 60
    && (!s.isActive ==> s == Fresh(duration))
    && (s.isCompleted ==> s.count >= total || s.timeRemaining == 0)
    && (!s.isCompleted ==> s.count < total || s.count == 0)
    && (s.count <= total || s.count == 1)
  }

  lemma FreshIsValid(duration: nat)
    ensures Valid(Fresh(duration), duration)
  {
  }

  /** Every tick and every prop change keeps the circle valid. */
  lemma ValidPreserved(s: Session, duration: nat)
    requires Valid(s, duration)
    ensures forall t: Tick :: Valid(ApplyTick(s, t, duration).session, duration)
    ensures forall a: bool :: Valid(SetActive(s, a, duration), duration)
  {
  }

  /** Ticks never lower the count, never raise the time left, never undo a
      completion and never touch the active flag. */
  lemma {:induction false} TicksMonotone(s: Session, ticks: seq<Tick>, duration: nat)
    requires s.timeRemaining >= 0
    ensures var r := RunTicks(s, ticks, duration);
            && r.count >= s.count && r.timeRemaining <= s.timeRemaining
            && (s.isCompleted ==> r.isCompleted)
            && r.isActive == s.isActive
    decreases |ticks|
  {
    if ticks != [] {
      TicksMonotone(ApplyTick(s, ticks[0], duration).session, ticks[1..], duration);
    }
  }

  /** A completed circle is frozen: no run of ticks changes anything. */
  lemma {:induction false} CompletedIsFrozen(s: Session, ticks: seq<Tick>, duration: nat)
    requires s.isCompleted
    ensures RunTicks(s, ticks, duration) == s
    decreases |ticks|
  {
    if ticks != [] {
      CompletedIsFrozen(s, ticks[1..], duration);
    }
  }

  function Seconds(n: nat): (ticks: seq<Tick>)
    ensures |ticks| == n
  {
    seq(n, _ => SecondInterval)
  }

  /** A running circle with `t` seconds left completes after `t` seconds,
      whatever phase it is in (one second when already at zero). */
  lemma {:induction false} CountdownCompletes(s: Session, duration: nat)
    requires Running(s) && s.timeRemaining >= 0
    ensures var r := RunTicks(s, Seconds(if s.timeRemaining == 0 then 1 else s.timeRemaining), duration);
            r.isCompleted && r.timeRemaining == 0 && r.phase == s.phase && r.count == s.count
    decreases s.timeRemaining
  {
    var n := if s.timeRemaining == 0 then 1 else s.timeRemaining;
    var ticks := Seconds(n);
    var s1 := ApplyTick(s, ticks[0], duration).session;
    assert ticks[1..] == Seconds(n - 1);
    if s.timeRemaining <= 1 {
      CompletedIsFrozen(s1, ticks[1..], duration);
    } else {
      CountdownCompletes(s1, duration);
    }
  }

  /** Four phase ticks from the in phase of a running circle with cycles to
      go walk one whole cycle: back at in, with the count one higher. */
  lemma FullCycle(s: Session, duration: nat)
    requires Running(s) && s.phase == In && s.count + 1 < TotalCycles(duration)
    ensures var r := RunTicks(s, [PhaseInterval, PhaseInterval, PhaseInterval, PhaseInterval], duration);
            r == s.(count := s.count + 1)
  {
    var ticks := [PhaseInterval, PhaseInterval, PhaseInterval, PhaseInterval];
    assert ticks[1..][1..][1..][1..] == [];
  }

  /** Pausing (deactivation) mid-session discards everything: the next start
      begins at the in phase of cycle one with the full time. */
  lemma DeactivateForgetsProgress(s: Session, duration: nat)
    requires s.isActive
    ensures SetActive(SetActive(s, false, duration), true, duration) ==
              Fresh(duration).(isActive := true, phase := In)
  {
  }

  // ---------------------------------------------------------------------
  // Rendering

  /** `formatTime`: minutes, a colon, and seconds padded to two digits. */
  function FormatTime(seconds: nat): (r: string)
    ensures |r| >= 4 && r[|r| - 3] == ':'
    ensures Text.AllDigits(r[..|r| - 3]) && Text.AllDigits(r[|r| - 2..])
  {
    Text.NatToString(seconds / 60) + ":" + PadTwo(seconds % 60)
  }

  function PadTwo(n: nat): (r: string)
    requires n < 60
    ensures |r| == 2 && Text.AllDigits(r)
  {
    if n < 10 then "0" + Text.NatToString(n)
    else TwoDigitNumeral(n); Text.NatToString(n)
  }

  lemma TwoDigitNumeral(n: nat)
    requires 10 <= n < 100
    ensures Text.NatToString(n) == [Text.DigitChar(n / 10), Text.DigitChar(n % 10)]
  {
  }

  lemma PadTwoReadsBack(n: nat)
    requires n < 60
    ensures Text.ParseNat(PadTwo(n)) == n
  {
    var r := PadTwo(n);
    if n < 10 {
      assert r == "0" + Text.NatToString(n);
      Text.ParseNatToString(n);
      assert r[..1] == "0" && r[1..] == Text.NatToString(n);
      assert Text.ParseNat("0") == 0 by {
        assert "0"[..0] == [];
      }
      assert Text.ParseNat(r) == 10 * Text.ParseNat(r[..1]) + Text.DigitValue(r[1]);
    } else {
      Text.ParseNatToString(n);
    }
  }

  /** The clock text read back as seconds. */
  function ParseTime(t: string): nat
    requires |t| >= 4 && Text.AllDigits(t[..|t| - 3]) && Text.AllDigits(t[|t| - 2..])
  {
    60 * Text.ParseNat(t[..|t| - 3]) + Text.ParseNat(t[|t| - 2..])
  }

  /** Reading the clock back gives the seconds it shows: minutes and
      seconds are both rendered without loss. */
  lemma FormatTimeReadsBack(seconds: nat)
    ensures ParseTime(FormatTime(seconds)) == seconds
  {
    var m := Text.NatToString(seconds / 60);
    var p := PadTwo(seconds % 60);
    var r := FormatTime(seconds);
    assert r == m + ":" + p;
    assert r[..|r| - 3] == m;
    assert r[|r| - 2..] == p;
    Text.ParseNatToString(seconds / 60);
    PadTwoReadsBack(seconds % 60);
  }

  lemma FormatTimeExamples()
    ensures FormatTime(120) == "2:00"
    ensures FormatTime(65) == "1:05"
    ensures FormatTime(59) == "0:59"
  {
    TwoMinutes();
    OneMinuteFive();
    FiftyNineSeconds();
  }

  lemma TwoMinutes()
    ensures FormatTime(120) == "2:00"
  {
  }

  lemma OneMinuteFive()
    ensures FormatTime(65) == "1:05"
  {
  }

  lemma FiftyNineSeconds()
    ensures FormatTime(59) == "0:59"
  {
  }

  /** The heading: the phase instruction while active, else an invitation. */
  function Heading(s: Session): (h: string)
    ensures !s.isActive ==> h == "Ready to begin"
  {
    if !s.isActive then "Ready to begin"
    else match s.phase
      case In => "Breathe in..."
      case Hold => "Hold..."
      case Out => "Breathe out..."
      case Rest => "Rest..."
  }

  /** While active the heading names the phase: distinct phases read
      differently. */
  lemma HeadingNamesPhase(s: Session, t: Session)
    requires s.isActive && t.isActive
    ensures Heading(s) == Heading(t) <==> s.phase == t.phase
  {
  }
}
