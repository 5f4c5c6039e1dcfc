/**
 The emergency page (src/pages/EmergencyActivation.tsx): a four-step flow
 initial -> contacts -> preview -> sent driven by one main button, a
 simulated two-second send, and the alert assembled from the message, the
 location and the contacts picked in the selector. Navigation and
 `resolveEmergency` are returned as an effect for the caller to apply.
 */
module EmergencyActivation {
  import opened Types
  import Text
  import Selector = ContactSelector
  import Preview = AlertPreview

  datatype Step = Initial | ContactsStep | PreviewStep | Sent

  datatype Flow = Flow(step: Step, isSending: bool, selected: seq<Contact>, message: string)

  const DefaultMessage := "I need help. This is an emergency."

  /** The page on mount. */
  const Start := Flow(Initial, false, [], DefaultMessage)

  /** The page's header shows its back arrow only on the two middle steps. */
  predicate ShowsBackArrow(step: Step) {
    step != Initial && step != Sent
  }

  /** The fixed mock location the page shares. */
  const MockLocation := Location("37.7749", "-122.4194", Some("123 Main Street, San Francisco, CA"))

  /** What a handler asks of the rest of the application. */
  datatype Effect = Stay | ResolveAndOpenBreathing

  datatype Outcome = Outcome(flow: Flow, effect: Effect)

  /** `handleContinue`, behind the button that is disabled while sending:
      the first two steps advance, preview starts the send, and sent hands
      over to the breathing exercise. */
  function HandleContinue(f: Flow): (r: Outcome)
    ensures f.isSending ==> r == Outcome(f, Stay)
    ensures !f.isSending && f.step == Initial ==> r == Outcome(f.(step := ContactsStep), Stay)
    ensures !f.isSending && f.step == ContactsStep ==> r == Outcome(f.(step := PreviewStep), Stay)
    ensures !f.isSending && f.step == PreviewStep ==> r == Outcome(f.(isSending := true), Stay)
    ensures !f.isSending && f.step == Sent ==> r == Outcome(f, ResolveAndOpenBreathing)
  {
    if f.isSending then Outcome(f, Stay)
    else match f.step
      case Initial => Outcome(f.(step := ContactsStep), Stay)
      case ContactsStep => Outcome(f.(step := PreviewStep), Stay)
      case PreviewStep => Outcome(f.(isSending := true), Stay)
      case Sent => Outcome(f, ResolveAndOpenBreathing)
  }

  /** `handleBack`: one step back from contacts or preview, nothing
      elsewhere. No control of the page calls it (the header's back arrow
      leaves the page), so it is not one of the page's events below. */
  function HandleBack(f: Flow): (r: Flow)
    ensures f.step == ContactsStep ==> r == f.(step := Initial)
    ensures f.step == PreviewStep ==> r == f.(step := ContactsStep)
    ensures f.step == Initial || f.step == Sent ==> r == f
  {
    match f.step
    case ContactsStep => f.(step := Initial)
    case PreviewStep => f.(step := ContactsStep)
    case _ => f
  }

  /** Back undoes Continue on the two steps it was written for, and the
      other way round. */
  lemma BackUndoesContinue(f: Flow)
    requires !f.isSending
    ensures f.step == Initial || f.step == ContactsStep ==> HandleBack(HandleContinue(f).flow) == f
    ensures f.step == ContactsStep || f.step == PreviewStep ==> HandleContinue(HandleBack(f)).flow == f
  {
  }

  /** The end of the simulated send: the flow reaches the sent step. */
  function SendCompleted(f: Flow): (r: Flow)
    requires f.isSending
    ensures !r.isSending && r.step == Sent
    ensures r.selected == f.selected && r.message == f.message
  {
    f.(isSending := false, step := Sent)
  }

  datatype PageEvent =
    | ContinuePressed
    | SendTimerFired
    | SelectionReported(contacts: seq<Contact>)
    | MessageEdited(text: string)
    | CancelPressed

  /** One event, where it can happen: the send timer only while sending,
      the selector only on the contacts step, the message box and the
      cancel button only on the initial step. */
  function Apply(f: Flow, e: PageEvent): Outcome {
    match e
    case ContinuePressed => HandleContinue(f)
    case SendTimerFired => if f.isSending then Outcome(SendCompleted(f), Stay) else Outcome(f, Stay)
    case SelectionReported(cs) =>
      if f.step == ContactsStep then Outcome(f.(selected := cs), Stay) else Outcome(f, Stay)
    case MessageEdited(t) =>
      if f.step == Initial then Outcome(f.(message := t), Stay) else Outcome(f, Stay)
    case CancelPressed =>
      if f.step == Initial then Outcome(f, ResolveAndOpenBreathing) else Outcome(f, Stay)
  }

  function ApplyAll(f: Flow, es: seq<PageEvent>): Flow
    decreases |es|
  {
    if es == [] then f else ApplyAll(Apply(f, es[0]).flow, es[1..])
  }

  /** A send is pending only on the preview step. */
  predicate FlowInv(f: Flow) {
    f.isSending ==> f.step == PreviewStep
  }

  /** Every reachable flow keeps its send on the preview step, so the alert
      is sent at most once per visit and the sent step is only reached
      through a send. */
  lemma {:induction false} SendingOnlyOnPreview(f: Flow, es: seq<PageEvent>)
    requires FlowInv(f)
    ensures FlowInv(ApplyAll(f, es))
    decreases |es|
  {
    if es != [] {
      var g := Apply(f, es[0]).flow;
      assert FlowInv(g);
      SendingOnlyOnPreview(g, es[1..]);
    }
  }

  /** The step never moves backwards along the page's own controls. */
  function Rank(s: Step): nat {
    match s
    case Initial => 0
    case ContactsStep => 1
    case PreviewStep => 2
    case Sent => 3
  }

  lemma {:induction false} StepsOnlyAdvance(f: Flow, es: seq<PageEvent>)
    ensures Rank(ApplyAll(f, es).step) >= Rank(f.step)
    decreases |es|
  {
    if es != [] {
      StepsOnlyAdvance(Apply(f, es[0]).flow, es[1..]);
    }
  }

  /** The main button's caption for each step. */
  function ButtonText(s: Step): string {
    match s
    case Initial => "Continue"
    case ContactsStep => "Preview Alert"
    case PreviewStep => "Send Alert"
    case Sent => "Go to Breathing Exercise"
  }

  /** Every step has its own caption. */
  lemma ButtonTextDistinct(s: Step, t: Step)
    ensures ButtonText(s) == ButtonText(t) <==> s == t
  {
  }

  /** The header's back arrow is shown only in the middle steps. */
  function ShowBack(s: Step): (b: bool)
    ensures b <==> s == ContactsStep || s == PreviewStep
  {
    s != Initial && s != Sent
  }

  /** The main button is red only when it sends the alert. */
  function DangerButton(s: Step): (b: bool)
    ensures b <==> ButtonText(s) == "Send Alert"
  {
    s == PreviewStep
  }

  /** The alert the preview shows: the current message, the mock location
      and exactly the selected contacts. */
  function Alert(f: Flow): (a: EmergencyAlert)
    ensures a.contacts == f.selected && a.message == f.message && a.location == MockLocation
  {
    EmergencyAlert(f.message, MockLocation, f.selected)
  }

  /** The confirmation on the sent step: "contact" for one, "contacts" for
      any other number. */
  function SentMessage(n: nat): (r: string) {
    "Your emergency alert has been sent to " + Text.NatToString(n)
      + (if n != 1 then " contacts." else " contact.")
  }

  /** The confirmation tells the number of contacts alerted: distinct
      counts give distinct messages. */
  lemma SentMessageInjective(a: nat, b: nat)
    ensures SentMessage(a) == SentMessage(b) ==> a == b
  {
    if SentMessage(a) == SentMessage(b) {
      var m := SentMessage(a);
      var p := "Your emergency alert has been sent to ";
      var na := Text.NatToString(a);
      var nb := Text.NatToString(b);
      var sa := if a != 1 then " contacts." else " contact.";
      var sb := if b != 1 then " contacts." else " contact.";
      assert m == p + na + sa && m == p + nb + sb;
      assert m[|m| - 2] == sa[|sa| - 2] == sb[|sb| - 2];
      assert sa == sb;
      assert |na| == |nb|;
      assert na == m[|p|..|p| + |na|];
      assert nb == m[|p|..|p| + |nb|];
      Text.NatToStringInjective(a, b);
    }
  }

  /** On the contacts step, a click in the selector feeds the alert: its
      contacts are then exactly the contacts whose id the new selection
      holds, in contact-list order, and the preview's count label is their
      number. */
  lemma SelectorFeedsAlert(f: Flow, contacts: seq<Contact>, selection: seq<string>, id: string)
    requires f.step == ContactsStep
    ensures var sel := Selector.Toggle(selection, id);
            var g := Apply(f, SelectionReported(Selector.SelectedContacts(contacts, sel))).flow;
            && (forall c :: c in Alert(g).contacts <==> c in contacts && c.id in sel)
            && Preview.ContactCountLabel(|Alert(g).contacts|) ==
                 Preview.ContactCountLabel(|Selector.SelectedContacts(contacts, sel)|)
  {
  }
}
