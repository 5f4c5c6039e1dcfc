/**
 The calculator disguise and its covert trigger
 (src/components/Calculator/Calculator.tsx). A press of a key is a handler
 that updates the component state; after it, the trigger effect runs when a
 value it depends on (the tap count or the display) changed. Press times are
 integer milliseconds carried by the events, the 1.5 s idle reset is an
 event of its own, and the arithmetic (`parseFloat`, `String(result)`) is the
 opaque parameter `compute`.
 */
module Calculator {
  import opened Types
  import Text

  /** Two digit presses closer than this (strictly) belong to one burst. */
  const TapWindowMs := 800
  /** The delay after which an idle burst is forgotten (`IdleTimeout`). */
  const IdleResetMs := 1500
  /** Burst length that fires the triple-tap trigger. */
  const RequiredTaps := 3

  type DigitChar = c: char | Text.IsDigit(c) witness '0'

  datatype Operator = Add | Subtract | Multiply | Divide | Percent | Negate

  /** The display text of `firstOperand op display`, as the source renders it. */
  type Compute = (string, Operator, string) -> string

  datatype CalcState = CalcState(
    display: string,
    firstOperand: Option<string>,
    operator: Option<Operator>,
    waitingForSecondOperand: bool,
    tapCount: nat,
    lastTapTime: int)

  const Initial := CalcState("0", None, None, false, 0, 0)

  datatype CalcEvent =
    | DigitPressed(digit: DigitChar, now: int)
    | DecimalPressed
    | OperatorPressed(op: Operator)
    | EqualsPressed
    | ClearPressed
    | IdleTimeout

  /** The display after typing `d` when not waiting for an operand. */
  function AppendDigit(display: string, d: DigitChar): string {
    if display == "0" then [d] else display + [d]
  }

  function InputDigit(s: CalcState, d: DigitChar, now: int): (r: CalcState)
    ensures r.lastTapTime == now
    ensures now - s.lastTapTime < TapWindowMs ==> r.tapCount == s.tapCount + 1
    ensures now - s.lastTapTime >= TapWindowMs ==> r.tapCount == 1
    ensures s.waitingForSecondOperand ==> r.display == [d]
    ensures !s.waitingForSecondOperand ==> r.display == AppendDigit(s.display, d)
    ensures !r.waitingForSecondOperand
    ensures r.firstOperand == s.firstOperand && r.operator == s.operator
  {
    var taps := if now - s.lastTapTime < TapWindowMs then s.tapCount + 1 else 1;
    if s.waitingForSecondOperand then
      s.(tapCount := taps, lastTapTime := now, display := [d], waitingForSecondOperand := false)
    else
      s.(tapCount := taps, lastTapTime := now, display := AppendDigit(s.display, d))
  }

  function InputDecimal(s: CalcState): (r: CalcState)
    ensures '.' in r.display && !r.waitingForSecondOperand
    ensures s.waitingForSecondOperand ==> r.display == "0."
    ensures !s.waitingForSecondOperand && '.' in s.display ==> r == s
    ensures !s.waitingForSecondOperand && '.' !in s.display ==> r.display == s.display + "."
    ensures r.(display := s.display, waitingForSecondOperand := s.waitingForSecondOperand) == s
  {
    if s.waitingForSecondOperand then s.(display := "0.", waitingForSecondOperand := false)
    else if '.' !in s.display then s.(display := s.display + ".")
    else s
  }

  /** `handleOperator`: the first operator stores the display as first
      operand; a later one evaluates the pending operation first. */
  function HandleOperator(s: CalcState, op: Operator, compute: Compute): (r: CalcState)
    ensures r.waitingForSecondOperand && r.operator == Some(op)
    ensures s.firstOperand.None? ==> r.firstOperand == Some(s.display) && r.display == s.display
    ensures s.firstOperand.Some? && s.operator.Some? ==>
              var result := compute(s.firstOperand.value, s.operator.value, s.display);
              r.display == result && r.firstOperand == Some(result)
    ensures r.tapCount == s.tapCount && r.lastTapTime == s.lastTapTime
  {
    var s1 :=
      if s.firstOperand.None? then s.(firstOperand := Some(s.display))
      else if s.operator.Some? then
        var result := compute(s.firstOperand.value, s.operator.value, s.display);
        s.(display := result, firstOperand := Some(result))
      else s;
    s1.(waitingForSecondOperand := true, operator := Some(op))
  }

  /** `calculateResult`: nothing happens unless an operator and a first
      operand are both set. */
  function CalculateResult(s: CalcState, compute: Compute): (r: CalcState)
    ensures s.operator.None? || s.firstOperand.None? ==> r == s
    ensures s.operator.Some? && s.firstOperand.Some? ==>
              && r.display == compute(s.firstOperand.value, s.operator.value, s.display)
              && r.firstOperand.None? && r.operator.None? && !r.waitingForSecondOperand
    ensures r.tapCount == s.tapCount && r.lastTapTime == s.lastTapTime
  {
    if s.operator.None? || s.firstOperand.None? then s
    else
      s.(display := compute(s.firstOperand.value, s.operator.value, s.display),
         firstOperand := None, operator := None, waitingForSecondOperand := false)
  }

  /** `clearDisplay`: the calculator part returns to its initial values; the
      tap burst is not touched. */
  function ClearDisplay(s: CalcState): (r: CalcState)
    ensures r.(tapCount := Initial.tapCount, lastTapTime := Initial.lastTapTime) == Initial
    ensures r.tapCount == s.tapCount && r.lastTapTime == s.lastTapTime
  {
    s.(display := "0", firstOperand := None, operator := None, waitingForSecondOperand := false)
  }

  /** The idle timer, armed while the count is positive, zeroes it. */
  function ExpireIdle(s: CalcState): (r: CalcState)
    ensures r.tapCount == 0
    ensures r.(tapCount := s.tapCount) == s
  {
    s.(tapCount := 0)
  }

  /** The event handlers, before any effect runs. */
  function Handle(s: CalcState, e: CalcEvent, compute: Compute): CalcState {
    match e
    case DigitPressed(d, now) => InputDigit(s, d, now)
    case DecimalPressed => InputDecimal(s)
    case OperatorPressed(op) => HandleOperator(s, op, compute)
    case EqualsPressed => CalculateResult(s, compute)
    case ClearPressed => ClearDisplay(s)
    case IdleTimeout => ExpireIdle(s)
  }

  /** The code path can fire: pattern `code` with a non-empty code. */
  predicate CodeArmed(settings: AppSettings) {
    && settings.triggerPattern == Code
    && settings.triggerCode.Some?
    && settings.triggerCode.value != ""
  }

  predicate TapTriggerDue(s: CalcState, settings: AppSettings) {
    settings.triggerPattern == TripleTap && s.tapCount >= RequiredTaps
  }

  predicate CodeTriggerDue(s: CalcState, settings: AppSettings) {
    CodeArmed(settings) && s.display == settings.triggerCode.value
  }

  datatype Outcome = Outcome(state: CalcState, fired: bool)

  /** The trigger effect: a completed burst fires and restarts the count; a
      display equal to the armed code fires. */
  function TriggerEffect(s: CalcState, settings: AppSettings): (r: Outcome)
    ensures r.fired <==> TapTriggerDue(s, settings) || CodeTriggerDue(s, settings)
    ensures TapTriggerDue(s, settings) ==> r.state == s.(tapCount := 0)
    ensures !TapTriggerDue(s, settings) ==> r.state == s
  {
    var tapFired := TapTriggerDue(s, settings);
    var s1 := if tapFired then s.(tapCount := 0) else s;
    Outcome(s1, tapFired || CodeTriggerDue(s, settings))
  }

  /** Zeroing the count re-runs the effect, and that second run is quiet. */
  lemma TriggerEffectSettles(s: CalcState, settings: AppSettings)
    requires TapTriggerDue(s, settings)
    ensures TriggerEffect(TriggerEffect(s, settings).state, settings) == Outcome(s.(tapCount := 0), false)
  {
  }

  /** One event: the handler, then the trigger effect if one of the values
      it depends on changed. */
  function Step(s: CalcState, e: CalcEvent, settings: AppSettings, compute: Compute): (r: Outcome)
    ensures r.fired ==> TapTriggerDue(Handle(s, e, compute), settings) || CodeTriggerDue(Handle(s, e, compute), settings)
    ensures r.fired <== (TapTriggerDue(Handle(s, e, compute), settings) || CodeTriggerDue(Handle(s, e, compute), settings))
                        && (Handle(s, e, compute).tapCount != s.tapCount || Handle(s, e, compute).display != s.display)
    ensures r.fired ==> Handle(s, e, compute).tapCount != s.tapCount || Handle(s, e, compute).display != s.display
    ensures r.state == if r.fired && TapTriggerDue(Handle(s, e, compute), settings)
                       then Handle(s, e, compute).(tapCount := 0) else Handle(s, e, compute)
  {
    var s1 := Handle(s, e, compute);
    if s1.tapCount != s.tapCount || s1.display != s.display then TriggerEffect(s1, settings)
    else Outcome(s1, false)
  }

  datatype Trace = Trace(state: CalcState, fired: seq<bool>)

  /** A run of events; `fired[i]` says whether event `i` fired the trigger. */
  function Run(s: CalcState, events: seq<CalcEvent>, settings: AppSettings, compute: Compute): (t: Trace)
    ensures |t.fired| == |events|
    decreases |events|
  {
    if events == [] then Trace(s, [])
    else
      var o := Step(s, events[0], settings, compute);
      var rest := Run(o.state, events[1..], settings, compute);
      Trace(rest.state, [o.fired] + rest.fired)
  }

  /** The on-mount run of the trigger effect: with code "0" the fresh
      display already matches. */
  function Mount(settings: AppSettings): (r: Outcome)
    ensures r.fired <==> CodeArmed(settings) && settings.triggerCode.value == "0"
  {
    TriggerEffect(Initial, settings)
  }

  // ---------------------------------------------------------------------
  // Triple tap

  /** Under the triple-tap pattern a burst never rests at three or more. */
  lemma TripleTapKeepsCountBelowThree(s: CalcState, e: CalcEvent, settings: AppSettings, compute: Compute)
    requires settings.triggerPattern == TripleTap && s.tapCount < RequiredTaps
    ensures Step(s, e, settings, compute).state.tapCount < RequiredTaps
  {
  }

  /** Under the triple-tap pattern an event fires exactly when it is a digit
      pressed within the window after a burst of two. */
  lemma TripleTapFiresIff(s: CalcState, e: CalcEvent, settings: AppSettings, compute: Compute)
    requires settings.triggerPattern == TripleTap && s.tapCount < RequiredTaps
    ensures Step(s, e, settings, compute).fired <==>
              e.DigitPressed? && s.tapCount == RequiredTaps - 1 && e.now - s.lastTapTime < TapWindowMs
  {
  }

  function Taps(times: seq<int>): seq<CalcEvent> {
    seq(|times|, i requires 0 <= i < |times| => DigitPressed('1', times[i]))
  }

  /** Presses at 0, 700 and 1400 ms fire on the third; presses at 0, 900 and
      1600 ms restart the burst at the second and never fire. */
  lemma TripleTapTimings(settings: AppSettings, compute: Compute)
    requires settings.triggerPattern == TripleTap
    ensures Run(Initial, Taps([0, 700, 1400]), settings, compute).fired == [false, false, true]
    ensures Run(Initial, Taps([0, 900, 1600]), settings, compute).fired == [false, false, false]
    ensures Run(Initial, Taps([0, 900, 1600]), settings, compute).state.tapCount == 2
  {
  }

  /** An idle timeout between presses restarts the burst: two quick presses,
      the timeout, then a press 700 ms later counts 1, not 3. */
  lemma IdleTimeoutRestartsBurst(settings: AppSettings, compute: Compute)
    requires settings.triggerPattern == TripleTap
    ensures var t := Run(Initial, [DigitPressed('1', 0), DigitPressed('1', 700), IdleTimeout,
                                   DigitPressed('1', 1400)], settings, compute);
            t.fired == [false, false, false, false] && t.state.tapCount == 1
  {
  }

  // ---------------------------------------------------------------------
  // Secret code

  /** Under the code pattern an event fires only when the display it leaves
      is exactly the non-empty code. */
  lemma CodeFiresOnlyOnMatch(s: CalcState, e: CalcEvent, settings: AppSettings, compute: Compute)
    requires settings.triggerPattern == Code
    ensures Step(s, e, settings, compute).fired ==>
              CodeArmed(settings) && Step(s, e, settings, compute).state.display == settings.triggerCode.value
  {
  }

  /** An absent or empty code never fires, and neither does the gesture
      pattern, whatever the events. */
  lemma {:induction false} UnarmedNeverFires(s: CalcState, events: seq<CalcEvent>, settings: AppSettings, compute: Compute)
    requires settings.triggerPattern == Gesture || (settings.triggerPattern == Code && !CodeArmed(settings))
    ensures forall i :: 0 <= i < |events| ==> !Run(s, events, settings, compute).fired[i]
    decreases |events|
  {
    if events != [] {
      var o := Step(s, events[0], settings, compute);
      UnarmedNeverFires(o.state, events[1..], settings, compute);
    }
  }

  function Keys(digits: string): seq<CalcEvent>
    requires Text.AllDigits(digits)
  {
    seq(|digits|, i requires 0 <= i < |digits| => DigitPressed(digits[i], 10000 * i))
  }

  /** With code "911", typing 9, 1, 1 fires on the last key; "91" never
      fires, and a fourth 1 does not fire again. */
  lemma CodeNineOneOne(settings: AppSettings, compute: Compute)
    requires settings.triggerPattern == Code && settings.triggerCode == Some("911")
    ensures Run(Initial, Keys("911"), settings, compute).fired == [false, false, true]
    ensures Run(Initial, Keys("91"), settings, compute).fired == [false, false]
    ensures Run(Initial, Keys("9111"), settings, compute).fired == [false, false, true, false]
  {
    NineOneOneFires(settings, compute);
    NinetyOneIsSilent(settings, compute);
    ExtraOneIsSilent(settings, compute);
  }

  lemma NineOneOneFires(settings: AppSettings, compute: Compute)
    requires settings.triggerPattern == Code && settings.triggerCode == Some("911")
    ensures Run(Initial, Keys("911"), settings, compute).fired == [false, false, true]
  {
    assert Keys("911") == [DigitPressed('9', 0), DigitPressed('1', 10000), DigitPressed('1', 20000)];
  }

  lemma NinetyOneIsSilent(settings: AppSettings, compute: Compute)
    requires settings.triggerPattern == Code && settings.triggerCode == Some("911")
    ensures Run(Initial, Keys("91"), settings, compute).fired == [false, false]
  {
    assert Keys("91") == [DigitPressed('9', 0), DigitPressed('1', 10000)];
  }

  lemma ExtraOneIsSilent(settings: AppSettings, compute: Compute)
    requires settings.triggerPattern == Code && settings.triggerCode == Some("911")
    ensures Run(Initial, Keys("9111"), settings, compute).fired == [false, false, true, false]
  {
    assert Keys("9111") == [DigitPressed('9', 0), DigitPressed('1', 10000), DigitPressed('1', 20000),
                            DigitPressed('1', 30000)];
  }

  // ---------------------------------------------------------------------
  // Display rules

  /** The display after typing `ds` on a display that shows `display`. */
  function TypeDigits(display: string, ds: seq<DigitChar>): string
    decreases |ds|
  {
    if ds == [] then display else AppendDigit(TypeDigits(display, ds[..|ds| - 1]), ds[|ds| - 1])
  }

  function DropLeadingZeros(ds: string): (r: string)
    ensures r == [] || r[0] != '0'
  {
    if |ds| > 0 && ds[0] == '0' then DropLeadingZeros(ds[1..]) else ds
  }

  /** A digit string as a number is written: without leading zeros, and "0"
      when nothing else is left. */
  function Canonical(ds: string): string {
    var t := DropLeadingZeros(ds);
    if t == [] then "0" else t
  }

  lemma {:induction false} DropLeadingZerosSnoc(ds: string, d: char)
    ensures DropLeadingZeros(ds + [d]) ==
              if DropLeadingZeros(ds) == [] then (if d == '0' then [] else [d])
              else DropLeadingZeros(ds) + [d]
    decreases |ds|
  {
    if |ds| > 0 {
      assert (ds + [d])[0] == ds[0] && (ds + [d])[1..] == ds[1..] + [d];
      if ds[0] == '0' {
        DropLeadingZerosSnoc(ds[1..], d);
      }
    } else {
      assert ds + [d] == [d];
    }
  }

  /** Typing digits on the cleared display shows them as a number is written:
      leading zeros are swallowed and "0" stays "0". */
  lemma {:induction false} TypedDigitsAreCanonical(ds: seq<DigitChar>)
    ensures TypeDigits("0", ds) == Canonical(ds)
    decreases |ds|
  {
    if ds != [] {
      var init := ds[..|ds| - 1];
      var d := ds[|ds| - 1];
      TypedDigitsAreCanonical(init);
      assert ds == init + [d];
      DropLeadingZerosSnoc(init, d);
    }
  }

  /** So 9, 1, 1 shows "911" and 0 on "0" shows "0". */
  lemma TypingExamples()
    ensures TypeDigits("0", "911") == "911"
    ensures TypeDigits("0", "0") == "0"
    ensures TypeDigits("0", "007") == "7"
  {
    TypedDigitsAreCanonical("911");
    TypedDigitsAreCanonical("0");
    TypedDigitsAreCanonical("007");
  }

  predicate AtMostOneDot(display: string) {
    multiset(display)['.'] <= 1
  }

  /** Digits, the decimal point, clear and the idle timeout never put a second
      point on the display. */
  lemma KeyEntryKeepsOneDot(s: CalcState, e: CalcEvent, compute: Compute)
    requires AtMostOneDot(s.display)
    requires !e.OperatorPressed? && !e.EqualsPressed?
    ensures AtMostOneDot(Handle(s, e, compute).display)
  {
    if e.DecimalPressed? && !s.waitingForSecondOperand && '.' !in s.display {
      assert multiset(s.display)['.'] == 0;
    }
  }

  /** A second decimal point changes nothing. */
  lemma DecimalIdempotent(s: CalcState)
    ensures InputDecimal(InputDecimal(s)) == InputDecimal(s)
  {
  }

  /** A first operand is stored exactly when an operator is: every handler
      keeps the two paired. */
  lemma OperandsStayPaired(s: CalcState, e: CalcEvent, compute: Compute)
    requires s.firstOperand.Some? <==> s.operator.Some?
    ensures var r := Handle(s, e, compute); r.firstOperand.Some? <==> r.operator.Some?
  {
  }
}
