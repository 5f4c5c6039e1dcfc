/**
 The breathing exercise page (src/pages/BreathingSupport.tsx): two flags,
 the four handlers that set them, the controls offered for each state, and
 the page composed with the circle it drives (`isActive` is passed down,
 `onComplete` comes back up).
 */
module BreathingSupport {
  import Circle = BreathingCircle

  /** The page passes a two-minute session to the circle. */
  const SessionMinutes := 2

  datatype Page = Page(active: bool, completed: bool)

  const InitialPage := Page(false, false)

  function HandleStart(p: Page): (r: Page)
    ensures r.active && !r.completed
  {
    Page(true, false)
  }

  function HandlePause(p: Page): (r: Page)
    ensures !r.active && r.completed == p.completed
  {
    p.(active := false)
  }

  function HandleReset(p: Page): (r: Page)
    ensures !r.active && !r.completed
    ensures r == InitialPage
  {
    Page(false, false)
  }

  function HandleComplete(p: Page): (r: Page)
    ensures !r.active && r.completed
  {
    Page(false, true)
  }

  datatype Control = StartButton(caption: string) | PauseButton | ResetButton | StartAgainButton

  /** The buttons rendered for a state, in page order. */
  function Controls(p: Page): seq<Control> {
    if p.completed then [StartAgainButton]
    else if p.active then [PauseButton, ResetButton]
    else [StartButton(if p.completed then "Start Again" else "Start")]
  }

  /** What each button does; "Start Again" is wired to the reset handler. */
  function Press(p: Page, c: Control): Page {
    match c
    case StartButton(_) => HandleStart(p)
    case PauseButton => HandlePause(p)
    case ResetButton => HandleReset(p)
    case StartAgainButton => HandleReset(p)
  }

  /** A completed page offers only "Start Again"; otherwise Pause and Reset
      are offered exactly while active and Start exactly while not, always
      labelled "Start" (its "Start Again" label sits on a branch where the
      page is never completed). */
  lemma ControlsByState(p: Page)
    ensures p.completed <==> Controls(p) == [StartAgainButton]
    ensures !p.completed ==> (PauseButton in Controls(p) <==> p.active)
    ensures !p.completed ==> (ResetButton in Controls(p) <==> p.active)
    ensures (exists l :: StartButton(l) in Controls(p)) <==> !p.completed && !p.active
    ensures forall c | c in Controls(p) && c.StartButton? :: c.caption == "Start"
  {
    if !p.completed && !p.active {
      assert StartButton("Start") in Controls(p);
    }
  }

  /** Whatever buttons are pressed from the initial page, it is never active
      and completed at once; and no button completes the session (only the
      circle's `onComplete` does), so a page completed after some presses
      was completed before them. */
  lemma {:induction false} NeverActiveAndCompleted(p: Page, presses: seq<Control>)
    requires !(p.active && p.completed)
    ensures var r := PressAll(p, presses); !(r.active && r.completed)
    ensures PressAll(p, presses).completed ==> p.completed
    decreases |presses|
  {
    if presses != [] {
      NeverActiveAndCompleted(Press(p, presses[0]), presses[1..]);
    }
  }

  function PressAll(p: Page, presses: seq<Control>): Page
    decreases |presses|
  {
    if presses == [] then p else PressAll(Press(p, presses[0]), presses[1..])
  }

  // ---------------------------------------------------------------------
  // The page together with its circle

  datatype Screen = Screen(page: Page, circle: Circle.Session)

  const InitialScreen := Screen(InitialPage, Circle.Fresh(SessionMinutes))

  datatype ScreenEvent = Clicked(control: Control) | Ticked(tick: Circle.Tick)

  /** One event on the screen. A click on a rendered button runs its handler
      and hands the new `active` flag to the circle; a click on a button
      that is not rendered does nothing. A tick that calls `onComplete`
      completes the page, which deactivates (and so resets) the circle. */
  function Dispatch(sc: Screen, e: ScreenEvent): (r: Screen)
    ensures e.Clicked? && e.control !in Controls(sc.page) ==> r == sc
  {
    match e
    case Clicked(c) =>
      if c !in Controls(sc.page) then sc
      else
        var p := Press(sc.page, c);
        Screen(p, Circle.SetActive(sc.circle, p.active, SessionMinutes))
    case Ticked(t) =>
      var res := Circle.ApplyTick(sc.circle, t, SessionMinutes);
      if res.notified then
        var p := HandleComplete(sc.page);
        Screen(p, Circle.SetActive(res.session, p.active, SessionMinutes))
      else Screen(sc.page, res.session)
  }

  /** The screen's consistency: the circle is valid, follows the page's
      `active` flag, and is never left completed (completion immediately
      deactivates it); the page is never active and completed at once. */
  predicate ScreenInv(sc: Screen) {
    && Circle.Valid(sc.circle, SessionMinutes)
    && sc.circle.isActive == sc.page.active
    && !sc.circle.isCompleted
    && !(sc.page.active && sc.page.completed)
  }

  lemma DispatchKeepsInv(sc: Screen, e: ScreenEvent)
    requires ScreenInv(sc)
    ensures ScreenInv(Dispatch(sc, e))
  {
    Circle.ValidPreserved(sc.circle, SessionMinutes);
  }

  function DispatchAll(sc: Screen, es: seq<ScreenEvent>): Screen
    decreases |es|
  {
    if es == [] then sc else DispatchAll(Dispatch(sc, es[0]), es[1..])
  }

  /** Every screen reachable from the initial one is consistent. */
  lemma {:induction false} ReachableScreensConsistent(es: seq<ScreenEvent>)
    ensures ScreenInv(DispatchAll(InitialScreen, es))
  {
    Circle.FreshIsValid(SessionMinutes);
    ReachableFrom(InitialScreen, es);
  }

  lemma {:induction false} ReachableFrom(sc: Screen, es: seq<ScreenEvent>)
    requires ScreenInv(sc)
    ensures ScreenInv(DispatchAll(sc, es))
    decreases |es|
  {
    if es != [] {
      DispatchKeepsInv(sc, es[0]);
      ReachableFrom(Dispatch(sc, es[0]), es[1..]);
    }
  }

  /** The tick that completes the session leaves the page showing only
      "Start Again" and the circle back at its initial record. */
  lemma CompletionShowsStartAgain(sc: Screen, t: Circle.Tick)
    requires ScreenInv(sc)
    requires Circle.ApplyTick(sc.circle, t, SessionMinutes).notified
    ensures var r := Dispatch(sc, Ticked(t));
            Controls(r.page) == [StartAgainButton] && r.circle == Circle.Fresh(SessionMinutes)
  {
  }

  /** Pause then Start does not resume: the circle restarts at the in phase
      of the first cycle with the full two minutes, whatever progress the
      session had made. */
  lemma PauseDiscardsProgress(sc: Screen)
    requires ScreenInv(sc) && sc.page.active
    ensures var paused := Dispatch(sc, Clicked(PauseButton));
            && Controls(paused.page) == [StartButton("Start")]
            && Dispatch(paused, Clicked(StartButton("Start"))).circle ==
                 Circle.Fresh(SessionMinutes).(isActive := true, phase := Circle.In)
  {
  }
}
