/**
 Which page the user sees (src/App.tsx and src/components/ProtectedRoute.tsx):
 the redirect effect driven by the disguise and emergency flags, the route
 table, and the guard that keeps every page but the disguise behind the
 disguise flag.
 */
module Routing {
  import opened Types
  import Ctx = AppContext
  import Calculator
  import Emergency = EmergencyActivation

  const HomePath := "/"
  const EmergencyPath := "/emergency"
  const BreathingPath := "/breathing"
  const ChatPath := "/chat"
  const ContactsPath := "/contacts"
  const SettingsPath := "/settings"

  /** The App effect's decision: disguised always goes home; an emergency
      seen from home goes to the emergency page; otherwise nowhere. */
  function RedirectTarget(isDisguised: bool, inEmergency: bool, path: string): (r: Option<string>)
    ensures isDisguised ==> r == Some(HomePath)
    ensures !isDisguised && inEmergency && path == HomePath ==> r == Some(EmergencyPath)
    ensures !isDisguised && (!inEmergency || path != HomePath) ==> r == None
  {
    if isDisguised then Some(HomePath)
    else if inEmergency && path == HomePath then Some(EmergencyPath)
    else None
  }

  /** The path after the effect has run (it runs again only if the path
      changed). */
  function Settle(isDisguised: bool, inEmergency: bool, path: string): string {
    match RedirectTarget(isDisguised, inEmergency, path)
    case Some(p) => p
    case None => path
  }

  /** The redirect never chains: at the path it leads to, the effect either
      stays quiet or points at that same path. */
  lemma RedirectIsStable(isDisguised: bool, inEmergency: bool, path: string)
    ensures var p := Settle(isDisguised, inEmergency, path);
            RedirectTarget(isDisguised, inEmergency, p) == None
            || RedirectTarget(isDisguised, inEmergency, p) == Some(p)
  {
  }

  datatype PageId = DisguisedHome | EmergencyPage | BreathingPage | ChatPage | ContactsPage | SettingsPage

  /** The route table: `/` is open, the other five are wrapped in the guard. */
  datatype Route = Route(path: string, page: PageId, guarded: bool)

  const Routes: seq<Route> := [
    Route(HomePath, DisguisedHome, false),
    Route(EmergencyPath, EmergencyPage, true),
    Route(BreathingPath, BreathingPage, true),
    Route(ChatPath, ChatPage, true),
    Route(ContactsPath, ContactsPage, true),
    Route(SettingsPath, SettingsPage, true)
  ]

  function Lookup(routes: seq<Route>, path: string): (r: Option<Route>)
    ensures r.Some? ==> r.value in routes && r.value.path == path
    ensures r.None? ==> forall x | x in routes :: x.path != path
  {
    if routes == [] then None
    else if routes[0].path == path then Some(routes[0])
    else Lookup(routes[1..], path)
  }

  /** Only the home route is open; every other known path is guarded. */
  lemma OnlyHomeIsOpen(path: string)
    requires Lookup(Routes, path).Some?
    ensures !Lookup(Routes, path).value.guarded <==> path == HomePath
  {
  }

  datatype GuardDecision = RenderChildren | NavigateTo(to: string, replace: bool)

  /** `ProtectedRoute`: disguised means a replacing redirect home, otherwise
      the wrapped page as is. It reads nothing but the disguise flag. */
  function Guard(isDisguised: bool): (d: GuardDecision)
    ensures isDisguised <==> d == NavigateTo(HomePath, true)
    ensures !isDisguised <==> d == RenderChildren
  {
    if isDisguised then NavigateTo(HomePath, true) else RenderChildren
  }

  datatype View = Shows(page: PageId) | Redirects(to: string, replace: bool) | Blank

  /** What the router renders for a path: nothing for an unknown path, the
      page itself for the open route, the guard's decision for the others. */
  function Render(s: Ctx.AppState, path: string): View {
    match Lookup(Routes, path)
    case None => Blank
    case Some(r) =>
      if !r.guarded then Shows(r.page)
      else match Guard(s.isDisguised)
        case RenderChildren => Shows(r.page)
        case NavigateTo(to, replace) => Redirects(to, replace)
  }

  /** The page on screen once the redirect effect has settled. */
  function Screen(s: Ctx.AppState, path: string): View {
    Render(s, Settle(s.isDisguised, s.inEmergency, path))
  }

  /** While disguised, only the disguise is ever on screen, whatever the path
      and whatever the emergency flag; and the guard alone would redirect
      every protected page home. */
  lemma DisguisedShowsOnlyDisguise(s: Ctx.AppState, path: string)
    requires s.isDisguised
    ensures Screen(s, path) == Shows(DisguisedHome)
    ensures Lookup(Routes, path).Some? && path != HomePath ==> Render(s, path) == Redirects(HomePath, true)
  {
  }

  /** Undisguised, each known path shows its own page, except home during an
      emergency, which shows the emergency page. */
  lemma UndisguisedShowsRoutedPage(s: Ctx.AppState, path: string)
    requires !s.isDisguised && Lookup(Routes, path).Some?
    ensures s.inEmergency && path == HomePath ==> Screen(s, path) == Shows(EmergencyPage)
    ensures !(s.inEmergency && path == HomePath) ==> Screen(s, path) == Shows(Lookup(Routes, path).value.page)
  {
  }

  /** The guard ignores the emergency flag. */
  lemma GuardIgnoresEmergency(s: Ctx.AppState, path: string)
    ensures Render(s, path) == Render(s.(inEmergency := !s.inEmergency), path)
  {
  }

  /** The covert trigger from the disguised home: three quick taps on the
      calculator, under the default settings, fire the trigger, and the
      emergency state it sets puts the emergency page on screen. */
  lemma TripleTapOpensEmergencyPage(compute: Calculator.Compute)
    ensures var s := Ctx.Init();
            var taps := Calculator.Run(Calculator.Initial, Calculator.Taps([0, 700, 1400]), s.settings, compute);
            && taps.fired[2]
            && Screen(Ctx.TriggerEmergency(s), HomePath) == Shows(EmergencyPage)
  {
    Calculator.TripleTapTimings(Ctx.Init().settings, compute);
  }

  /** The emergency page's hand-over (its final button or its cancel button)
      ends the emergency and, the app being undisguised, shows the breathing
      page; locking the app from any page shows the disguise again. */
  lemma HandOverAndLock(s: Ctx.AppState, path: string)
    requires !s.isDisguised && s.inEmergency
    ensures Screen(Ctx.ResolveEmergency(s), BreathingPath) == Shows(BreathingPage)
    ensures Screen(Ctx.ToggleDisguise(s), path) == Shows(DisguisedHome)
  {
  }

  /** Applies a page effect of the emergency flow to the state and path. */
  function ApplyEffect(s: Ctx.AppState, path: string, e: Emergency.Effect): (Ctx.AppState, string) {
    match e
    case Stay => (s, path)
    case ResolveAndOpenBreathing => (Ctx.ResolveEmergency(s), BreathingPath)
  }

  /** Continue on the sent step takes an undisguised user to the breathing
      page with the emergency over. */
  lemma ContinueAfterSentOpensBreathing(s: Ctx.AppState, f: Emergency.Flow)
    requires !s.isDisguised && f.step == Emergency.Sent && !f.isSending
    ensures var (s1, p1) := ApplyEffect(s, EmergencyPath, Emergency.HandleContinue(f).effect);
            !s1.inEmergency && Screen(s1, p1) == Shows(BreathingPage)
  {
  }

  /** The header's back arrow on the emergency page: the browser returns to
      the history entry `prev` and the redirect effect settles from there.
      The routes are keyed by the path, so the routed page is mounted anew
      whenever the path changes: if the emergency page is on screen again
      after the path has left it, it is a fresh page. The result is the
      settled path and, when the emergency page is on screen, its flow. */
  function BackArrow(s: Ctx.AppState, prev: string, f: Emergency.Flow): (r: (string, Option<Emergency.Flow>))
    ensures r.0 == Settle(s.isDisguised, s.inEmergency, prev)
    ensures r.1.Some? <==> Screen(s, prev) == Shows(EmergencyPage)
    ensures r.1.Some? && prev != EmergencyPath ==> r.1.value == Emergency.Start
    ensures r.1.Some? && prev == EmergencyPath ==> r.1.value == f
  {
    var p := Settle(s.isDisguised, s.inEmergency, prev);
    var flow := if prev == EmergencyPath then f else Emergency.Start;
    (p, if Render(s, p) == Shows(EmergencyPage) then Some(flow) else None)
  }

  /** The emergency page is reached from home through the redirect, so its
      back arrow returns home, and the redirect puts the emergency page back
      on screen at its first step: the picked contacts and an edited message
      are gone, and a send in progress is dropped. Locked, the same arrow
      shows the disguise. */
  lemma BackArrowRestartsEmergencyFlow(s: Ctx.AppState, f: Emergency.Flow)
    requires s.inEmergency && Emergency.ShowsBackArrow(f.step)
    ensures !s.isDisguised ==> BackArrow(s, HomePath, f) == (EmergencyPath, Some(Emergency.Start))
    ensures !s.isDisguised ==> var g := BackArrow(s, HomePath, f).1.value;
              g.step == Emergency.Initial && g.selected == [] && !g.isSending && g.message == Emergency.DefaultMessage
    ensures s.isDisguised ==> BackArrow(s, HomePath, f) == (HomePath, None)
  {
  }
}
