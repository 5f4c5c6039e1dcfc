/**
 The global application state owned by the context provider
 (src/context/AppContext.tsx): the disguise and emergency flags, the contact
 list, the chat transcript, the settings and the window of recently used
 reply groups. Every operation is a pure transition on `AppState`; ids that
 the source takes from `Date.now()` and the choices it takes from
 `Math.random()` are parameters.
 */
module AppContext {
  import opened Types
  import opened Sequences

  const DefaultSettings: AppSettings :=
    AppSettings(CalculatorDisguise, TripleTap, Some("911"), false, false, true, 60)

  const DefaultContacts: seq<Contact> := [
    Contact("1", "Mom", "555-123-4567", "Family - Emergency Contact"),
    Contact("2", "Sarah (Therapist)", "555-987-6543", "Healthcare Provider"),
    Contact("3", "Crisis Helpline", "1-800-273-8255", "Emergency Services")
  ]

  const Greeting: ChatMessage :=
    ChatMessage("1", "Hi, I'm here to listen and support you. How are you feeling right now?", Ai)

  /** The four groups of canned replies, in the order the source lists them. */
  datatype ResponseType = Empathy | Grounding | Encouragement | Practical

  const ResponseGroups: seq<ResponseType> := [Empathy, Grounding, Encouragement, Practical]

  lemma AllGroupsListed()
    ensures forall h: ResponseType :: h in ResponseGroups
  {
    forall h: ResponseType ensures h in ResponseGroups {
      match h
      case Empathy => assert ResponseGroups[0] == h;
      case Grounding => assert ResponseGroups[1] == h;
      case Encouragement => assert ResponseGroups[2] == h;
      case Practical => assert ResponseGroups[3] == h;
    }
  }

  /** How many reply groups are remembered and avoided. */
  const ReplyWindow := 2

  const EmpathyReplies: seq<string> := [
    "I hear how difficult this is. You're not alone, and we'll get through this together.",
    "I can sense you're going through a lot right now. It's okay to feel this way.",
    "You're so strong for reaching out. I'm here to support you however you need.",
    "Take all the time you need. There's no rush, and you're safe here."]

  const GroundingReplies: seq<string> := [
    "Let's try something gentle: Can you name 3 things you can see right now?",
    "Take a slow breath with me. Feel your feet on the ground. You're anchored and safe.",
    "Focus on something you can touch - maybe something soft or smooth nearby.",
    "If you'd like, we can do a quick breathing exercise together."]

  const EncouragementReplies: seq<string> := [
    "You're doing the right thing by seeking support. That takes real courage.",
    "Each small step matters. You're handling this with such strength.",
    "Remember: this moment will pass. You've gotten through difficult times before.",
    "I believe in you. Let's take this one tiny step at a time."]

  const PracticalReplies: seq<string> := [
    "Would you like to try a calming technique, or would you prefer to just talk?",
    "Is there someone in your support network you'd like to reach out to?",
    "What would help you feel a bit safer right now?",
    "We can explore some gentle coping strategies whenever you're ready."]

  /** The canned replies of a group; each group has four. */
  function Responses(g: ResponseType): (rs: seq<string>)
    ensures |rs| == 4
  {
    match g
    case Empathy => EmpathyReplies
    case Grounding => GroundingReplies
    case Encouragement => EncouragementReplies
    case Practical => PracticalReplies
  }

  /** The provider's state. `pendingReplies` holds, oldest first, one entry per
      user message whose delayed reply has not fired yet: the window of recent
      reply groups as it was when that message was sent. */
  datatype AppState = AppState(
    isDisguised: bool,
    inEmergency: bool,
    contacts: seq<Contact>,
    chatMessages: seq<ChatMessage>,
    settings: AppSettings,
    lastResponseTypes: seq<ResponseType>,
    pendingReplies: seq<seq<ResponseType>>)

  /** The state at start-up: disguised, not in an emergency, default settings. */
  function Init(): (s: AppState)
    ensures s.isDisguised && !s.inEmergency
    ensures s.settings.triggerPattern == TripleTap && s.settings.triggerCode == Some("911")
    ensures s.contacts == DefaultContacts && s.chatMessages == [Greeting]
    ensures s.lastResponseTypes == [] && s.pendingReplies == []
  {
    AppState(true, false, DefaultContacts, [Greeting], DefaultSettings, [], [])
  }

  function ToggleDisguise(s: AppState): (r: AppState)
    ensures r.isDisguised != s.isDisguised
    ensures r.(isDisguised := s.isDisguised) == s
  {
    s.(isDisguised := !s.isDisguised)
  }

  /** Toggling the disguise twice changes nothing. */
  lemma ToggleDisguiseInvolution(s: AppState)
    ensures ToggleDisguise(ToggleDisguise(s)) == s
  {
  }

  function TriggerEmergency(s: AppState): (r: AppState)
    ensures r.inEmergency && !r.isDisguised
    ensures r.(inEmergency := s.inEmergency, isDisguised := s.isDisguised) == s
  {
    s.(inEmergency := true, isDisguised := false)
  }

  function ResolveEmergency(s: AppState): (r: AppState)
    ensures !r.inEmergency
    ensures r.(inEmergency := s.inEmergency) == s
  {
    s.(inEmergency := false)
  }

  /** Firing the trigger again is harmless, and resolving leaves the app
      undisguised. */
  lemma EmergencyRoundTrip(s: AppState)
    ensures TriggerEmergency(TriggerEmergency(s)) == TriggerEmergency(s)
    ensures var r := ResolveEmergency(TriggerEmergency(s));
            !r.inEmergency && !r.isDisguised && r.contacts == s.contacts && r.settings == s.settings
  {
  }

  function AddContact(s: AppState, draft: ContactDraft, id: string): (r: AppState)
    ensures |r.contacts| == |s.contacts| + 1
    ensures r.contacts[..|s.contacts|] == s.contacts
    ensures r.contacts[|s.contacts|] == Contact(id, draft.name, draft.phone, draft.relation)
    ensures r.(contacts := s.contacts) == s
  {
    s.(contacts := s.contacts + [Contact(id, draft.name, draft.phone, draft.relation)])
  }

  /** `contacts.filter(contact => contact.id !== id)`. */
  function WithoutId(contacts: seq<Contact>, id: string): seq<Contact> {
    Filter(contacts, (c: Contact) => c.id != id)
  }

  function RemoveContact(s: AppState, id: string): (r: AppState)
    ensures forall c | c in r.contacts :: c.id != id
    ensures forall c | c in s.contacts && c.id != id :: c in r.contacts
    ensures IsSubsequence(r.contacts, s.contacts)
    ensures forall c :: multiset(r.contacts)[c] == if c.id == id then 0 else multiset(s.contacts)[c]
    ensures (forall i :: 0 <= i < |s.contacts| ==> s.contacts[i].id != id) ==> r == s
    ensures r.(contacts := s.contacts) == s
  {
    FilterIsSubsequence(s.contacts, (c: Contact) => c.id != id);
    FilterMultiplicity(s.contacts, (c: Contact) => c.id != id);
    s.(contacts := WithoutId(s.contacts, id))
  }

  /** Removing an id twice is removing it once. */
  lemma RemoveContactIdempotent(s: AppState, id: string)
    ensures RemoveContact(RemoveContact(s, id), id) == RemoveContact(s, id)
  {
    var r := RemoveContact(s, id);
    assert forall i :: 0 <= i < |r.contacts| ==> r.contacts[i] in r.contacts;
  }

  /** Adding a contact and then removing its (fresh) id restores the list. */
  lemma AddThenRemove(s: AppState, draft: ContactDraft, id: string)
    requires forall c | c in s.contacts :: c.id != id
    ensures RemoveContact(AddContact(s, draft, id), id) == s
  {
    var added := AddContact(s, draft, id).contacts;
    var c := added[|s.contacts|];
    assert added == s.contacts + [c];
    FilterAppend(s.contacts, [c], (x: Contact) => x.id != id);
    assert Filter([c], (x: Contact) => x.id != id) == [];
    assert WithoutId(s.contacts, id) == s.contacts;
  }

  /** `Partial<AppSettings>`: the keys present in an `updateSettings` call. */
  datatype SettingsPatch = SettingsPatch(
    disguiseMode: Option<DisguiseMode>,
    triggerPattern: Option<TriggerPattern>,
    triggerCode: Option<string>,
    soundEnabled: Option<bool>,
    darkMode: Option<bool>,
    autoLock: Option<bool>,
    autoLockTime: Option<int>)

  const EmptyPatch := SettingsPatch(None, None, None, None, None, None, None)

  /** `{ ...prev, ...patch }`: the keys in the patch overwrite, the others stay. */
  function ApplyPatch(prev: AppSettings, p: SettingsPatch): (r: AppSettings)
    ensures r.disguiseMode == (if p.disguiseMode.Some? then p.disguiseMode.value else prev.disguiseMode)
    ensures r.triggerPattern == (if p.triggerPattern.Some? then p.triggerPattern.value else prev.triggerPattern)
    ensures r.triggerCode == (if p.triggerCode.Some? then p.triggerCode else prev.triggerCode)
    ensures r.soundEnabled == (if p.soundEnabled.Some? then p.soundEnabled.value else prev.soundEnabled)
    ensures r.darkMode == (if p.darkMode.Some? then p.darkMode.value else prev.darkMode)
    ensures r.autoLock == (if p.autoLock.Some? then p.autoLock.value else prev.autoLock)
    ensures r.autoLockTime == (if p.autoLockTime.Some? then p.autoLockTime.value else prev.autoLockTime)
  {
    AppSettings(
      p.disguiseMode.GetOr(prev.disguiseMode),
      p.triggerPattern.GetOr(prev.triggerPattern),
      if p.triggerCode.Some? then p.triggerCode else prev.triggerCode,
      p.soundEnabled.GetOr(prev.soundEnabled),
      p.darkMode.GetOr(prev.darkMode),
      p.autoLock.GetOr(prev.autoLock),
      p.autoLockTime.GetOr(prev.autoLockTime))
  }

  /** Two patches applied one after the other, as a single patch: the later
      one wins on shared keys. */
  function Combine(first: SettingsPatch, second: SettingsPatch): SettingsPatch {
    SettingsPatch(
      if second.disguiseMode.Some? then second.disguiseMode else first.disguiseMode,
      if second.triggerPattern.Some? then second.triggerPattern else first.triggerPattern,
      if second.triggerCode.Some? then second.triggerCode else first.triggerCode,
      if second.soundEnabled.Some? then second.soundEnabled else first.soundEnabled,
      if second.darkMode.Some? then second.darkMode else first.darkMode,
      if second.autoLock.Some? then second.autoLock else first.autoLock,
      if second.autoLockTime.Some? then second.autoLockTime else first.autoLockTime)
  }

  /** Merge-patch laws: the empty patch is the identity, a patch applied twice
      acts once, and consecutive patches compose. */
  lemma PatchLaws(prev: AppSettings, p: SettingsPatch, q: SettingsPatch)
    ensures ApplyPatch(prev, EmptyPatch) == prev
    ensures ApplyPatch(ApplyPatch(prev, p), p) == ApplyPatch(prev, p)
    ensures ApplyPatch(ApplyPatch(prev, p), q) == ApplyPatch(prev, Combine(p, q))
  {
  }

  function UpdateSettings(s: AppState, p: SettingsPatch): (r: AppState)
    ensures r.settings == ApplyPatch(s.settings, p)
    ensures r.(settings := s.settings) == s
  {
    s.(settings := ApplyPatch(s.settings, p))
  }

  /** `responseTypes.filter(type => !lastResponseTypes.includes(type))`: the
      reply groups outside the window, in the order of `ResponseGroups`,
      written group by group. */
  function Available(avoid: seq<ResponseType>): (r: seq<ResponseType>)
    ensures forall g :: g in r <==> g in ResponseGroups && g !in avoid
    ensures |r| <= |ResponseGroups|
  {
    (if Empathy in avoid then [] else [Empathy])
    + (if Grounding in avoid then [] else [Grounding])
    + (if Encouragement in avoid then [] else [Encouragement])
    + (if Practical in avoid then [] else [Practical])
  }

  /** Only a window holding every group leaves no candidate. */
  lemma NothingAvailable(avoid: seq<ResponseType>)
    ensures Available(avoid) == [] ==> forall h: ResponseType :: h in avoid
  {
    forall h: ResponseType | h !in avoid ensures h in Available(avoid) {
      match h
      case Empathy =>
      case Grounding =>
      case Encouragement =>
      case Practical =>
    }
  }

  /** The group `getRandomResponse` picks: one outside `avoid` when there is
      one, any group otherwise, so always a fresh one for a window of at most
      two. `draw` stands for the random index and is taken modulo the number
      of candidates. */
  function PickGroup(avoid: seq<ResponseType>, draw: nat): (g: ResponseType)
    ensures g !in avoid || (forall h: ResponseType :: h in avoid)
    ensures |avoid| <= ReplyWindow ==> g !in avoid
  {
    var candidates := Available(avoid);
    NothingAvailable(avoid);
    WindowLeavesAChoice(avoid);
    if |candidates| > 0 then candidates[draw % |candidates|]
    else ResponseGroups[draw % |ResponseGroups|]
  }

  /** `[group, ...prev].slice(0, 2)`. */
  function Remember(last: seq<ResponseType>, g: ResponseType): (r: seq<ResponseType>)
    ensures |r| == if |last| < ReplyWindow then |last| + 1 else ReplyWindow
    ensures r[0] == g && r[1..] == last[..|r| - 1]
  {
    ([g] + last)[..if |last| < ReplyWindow then |last| + 1 else ReplyWindow]
  }

  /** A window of at most two groups always leaves some group to choose. */
  lemma WindowLeavesAChoice(last: seq<ResponseType>)
    ensures |last| <= ReplyWindow ==> exists h: ResponseType :: h !in last
  {
    if |last| > ReplyWindow {
    } else if |last| == 0 {
      assert Empathy !in last;
    } else if |last| == 1 {
      if last[0] == Empathy { assert Grounding !in last; } else { assert Empathy !in last; }
    } else {
      assert last == [last[0], last[1]];
      if Empathy !in last { } else if Grounding !in last { } else { assert Encouragement !in last; }
    }
  }

  function ReplyText(g: ResponseType, draw: nat): string {
    Responses(g)[draw % 4]
  }

  /** `sendMessage`: appends the user's message and schedules the reply, which
      remembers the window of recent groups as it is now. */
  function SendMessage(s: AppState, text: string, id: string): (r: AppState)
    ensures r.chatMessages == s.chatMessages + [ChatMessage(id, text, User)]
    ensures r.pendingReplies == s.pendingReplies + [s.lastResponseTypes]
    ensures r.(chatMessages := s.chatMessages, pendingReplies := s.pendingReplies) == s
  {
    s.(chatMessages := s.chatMessages + [ChatMessage(id, text, User)],
       pendingReplies := s.pendingReplies + [s.lastResponseTypes])
  }

  /** The window and every captured window hold at most two groups. */
  predicate WindowsBounded(s: AppState) {
    && |s.lastResponseTypes| <= ReplyWindow
    && forall i :: 0 <= i < |s.pendingReplies| ==> |s.pendingReplies[i]| <= ReplyWindow
  }

  /** The oldest pending reply fires, as the source does it: the group is
      chosen against the window captured when its message was sent, while the
      window itself is updated from its current value. */
  function DeliverReplyAsWritten(s: AppState, groupDraw: nat, textDraw: nat, id: string): (r: AppState)
    ensures s.pendingReplies == [] ==> r == s
    ensures s.pendingReplies != [] ==>
              && r.lastResponseTypes == Remember(s.lastResponseTypes, PickGroup(s.pendingReplies[0], groupDraw))
              && r.pendingReplies == s.pendingReplies[1..]
              && r.chatMessages == s.chatMessages + [ChatMessage(id, ReplyText(r.lastResponseTypes[0], textDraw), Ai)]
              && r.(chatMessages := s.chatMessages, lastResponseTypes := s.lastResponseTypes,
                    pendingReplies := s.pendingReplies) == s
    ensures WindowsBounded(s) && s.pendingReplies != [] ==> r.lastResponseTypes[0] !in s.pendingReplies[0]
  {
    if s.pendingReplies == [] then s
    else
      var g := PickGroup(s.pendingReplies[0], groupDraw);
      s.(chatMessages := s.chatMessages + [ChatMessage(id, ReplyText(g, textDraw), Ai)],
         lastResponseTypes := Remember(s.lastResponseTypes, g),
         pendingReplies := s.pendingReplies[1..])
  }

  /** The reply as evidently intended: the group is chosen against the window
      as it stands when the reply fires, so it differs from the two groups used
      last. */
  function DeliverReply(s: AppState, groupDraw: nat, textDraw: nat, id: string): (r: AppState)
    ensures s.pendingReplies == [] ==> r == s
    ensures s.pendingReplies != [] ==>
              && r.lastResponseTypes == Remember(s.lastResponseTypes, PickGroup(s.lastResponseTypes, groupDraw))
              && r.pendingReplies == s.pendingReplies[1..]
              && r.chatMessages == s.chatMessages + [ChatMessage(id, ReplyText(r.lastResponseTypes[0], textDraw), Ai)]
              && r.(chatMessages := s.chatMessages, lastResponseTypes := s.lastResponseTypes,
                    pendingReplies := s.pendingReplies) == s
    ensures WindowsBounded(s) && s.pendingReplies != [] ==> r.lastResponseTypes[0] !in s.lastResponseTypes
  {
    if s.pendingReplies == [] then s
    else
      var g := PickGroup(s.lastResponseTypes, groupDraw);
      s.(chatMessages := s.chatMessages + [ChatMessage(id, ReplyText(g, textDraw), Ai)],
         lastResponseTypes := Remember(s.lastResponseTypes, g),
         pendingReplies := s.pendingReplies[1..])
  }

  /** Every operation keeps the windows bounded. */
  lemma WindowsStayBounded(s: AppState, text: string, id: string, groupDraw: nat, textDraw: nat)
    requires WindowsBounded(s)
    ensures WindowsBounded(SendMessage(s, text, id))
    ensures WindowsBounded(DeliverReplyAsWritten(s, groupDraw, textDraw, id))
    ensures WindowsBounded(DeliverReply(s, groupDraw, textDraw, id))
  {
    var r := SendMessage(s, text, id);
    assert forall i :: 0 <= i < |s.pendingReplies| ==> r.pendingReplies[i] == s.pendingReplies[i];
  }

  /** Two messages sent back to back from a chat with no reply given and none
      pending: both replies are scheduled holding the empty window. */
  lemma TwoSendsCaptureOneWindow(s: AppState, m1: string, m2: string)
    requires s.lastResponseTypes == [] && s.pendingReplies == []
    ensures var sent := SendMessage(SendMessage(s, m1, "100"), m2, "200");
            sent.pendingReplies == [[], []] && sent.lastResponseTypes == []
  {
  }

  /** The first of the two replies fires (either way, the window it reads is
      empty): empathy answers and is remembered. */
  lemma FirstReplyUsesEmpathy(s: AppState)
    requires s.pendingReplies == [[], []] && s.lastResponseTypes == []
    ensures var r := DeliverReplyAsWritten(s, 0, 0, "101");
            && r.lastResponseTypes == [Empathy] && r.pendingReplies == [[]]
            && r.chatMessages == s.chatMessages + [ChatMessage("101", ReplyText(Empathy, 0), Ai)]
    ensures DeliverReply(s, 0, 0, "101") == DeliverReplyAsWritten(s, 0, 0, "101")
  {
    FirstPicks();
  }

  /** The second reply as written reads the empty window its message captured,
      so empathy answers again with the same text. */
  lemma SecondReplyAsWrittenRepeats(s: AppState)
    requires s.pendingReplies == [[]] && s.lastResponseTypes == [Empathy]
    ensures var r := DeliverReplyAsWritten(s, 0, 0, "201");
            && r.lastResponseTypes == [Empathy, Empathy]
            && r.chatMessages == s.chatMessages + [ChatMessage("201", ReplyText(Empathy, 0), Ai)]
  {
    FirstPicks();
  }

  /** The corrected second reply reads the current window and avoids empathy. */
  lemma SecondReplyAvoidsRepeat(s: AppState)
    requires s.pendingReplies == [[]] && s.lastResponseTypes == [Empathy]
    ensures DeliverReply(s, 0, 0, "201").lastResponseTypes == [Grounding, Empathy]
  {
    FirstPicks();
  }

  /** Two messages sent before the first reply fires, from a chat no reply
      has been given in yet (start-up included): as written, both replies
      avoid the same stale window, so with the same draws the same group
      answers twice in a row with the same text, and the window ends up
      holding one group twice. */
  lemma StaleWindowRepeatsGroup(s: AppState, m1: string, m2: string)
    requires s.lastResponseTypes == [] && s.pendingReplies == []
    ensures var sent := SendMessage(SendMessage(s, m1, "100"), m2, "200");
            var answered := DeliverReplyAsWritten(DeliverReplyAsWritten(sent, 0, 0, "101"), 0, 0, "201");
            && answered.lastResponseTypes == [Empathy, Empathy]
            && answered.chatMessages[|answered.chatMessages| - 2].text
               == answered.chatMessages[|answered.chatMessages| - 1].text
  {
    var sent := SendMessage(SendMessage(s, m1, "100"), m2, "200");
    TwoSendsCaptureOneWindow(s, m1, m2);
    FirstReplyUsesEmpathy(sent);
    SecondReplyAsWrittenRepeats(DeliverReplyAsWritten(sent, 0, 0, "101"));
  }

  /** The first draw picks the first candidate: empathy from an empty window,
      grounding once empathy has been used. */
  lemma FirstPicks()
    ensures PickGroup([], 0) == Empathy
    ensures PickGroup([Empathy], 0) == Grounding
  {
    assert Available([]) == ResponseGroups;
    assert Available([Empathy]) == [Grounding, Encouragement, Practical];
  }

  /** The same two messages answered as intended: the second reply avoids the
      group the first one used. */
  lemma FreshWindowAvoidsRepeat(s: AppState, m1: string, m2: string)
    requires s.lastResponseTypes == [] && s.pendingReplies == []
    ensures var sent := SendMessage(SendMessage(s, m1, "100"), m2, "200");
            var answered := DeliverReply(DeliverReply(sent, 0, 0, "101"), 0, 0, "201");
            answered.lastResponseTypes == [Grounding, Empathy]
  {
    var sent := SendMessage(SendMessage(s, m1, "100"), m2, "200");
    TwoSendsCaptureOneWindow(s, m1, m2);
    FirstReplyUsesEmpathy(sent);
    SecondReplyAvoidsRepeat(DeliverReply(sent, 0, 0, "101"));
  }

  /** The groups of successive replies when each is chosen against the current
      window, starting from window `last`. */
  function ReplyGroups(last: seq<ResponseType>, draws: seq<nat>): seq<ResponseType>
    decreases |draws|
  {
    if draws == [] then []
    else
      var g := PickGroup(last, draws[0]);
      [g] + ReplyGroups(Remember(last, g), draws[1..])
  }

  /** The first two replies avoid the window they start from: the first is
      outside it, the second differs from its most recent group. */
  lemma OpeningReplies(last: seq<ResponseType>, draws: seq<nat>)
    requires |last| <= ReplyWindow
    ensures var gs := ReplyGroups(last, draws);
            && (|gs| > 0 ==> gs[0] !in last)
            && (|gs| > 1 && |last| > 0 ==> gs[1] != last[0])
  {
    if draws != [] {
      var g := PickGroup(last, draws[0]);
      var next := Remember(last, g);
      var tail := ReplyGroups(next, draws[1..]);
      assert ReplyGroups(last, draws) == [g] + tail;
      if draws[1..] != [] {
        assert tail[0] == PickGroup(next, draws[1..][0]);
        assert tail[0] !in next;
        if |last| > 0 {
          assert next[1] == last[0];
        }
      }
    }
  }

  /** Putting a group in front of replies that avoid it keeps replies within
      distance two apart. */
  lemma ConsKeepsApart(g: ResponseType, next: seq<ResponseType>, tail: seq<ResponseType>)
    requires |next| > 0 && next[0] == g
    requires |tail| > 0 ==> tail[0] !in next
    requires |tail| > 1 ==> tail[1] != next[0]
    requires forall i, j :: 0 <= j < i < |tail| && i - j <= 2 ==> tail[i] != tail[j]
    ensures var gs := [g] + tail;
            forall i, j :: 0 <= j < i < |gs| && i - j <= 2 ==> gs[i] != gs[j]
  {
    var gs := [g] + tail;
    forall i, j | 0 <= j < i < |gs| && i - j <= 2 ensures gs[i] != gs[j] {
      if j == 0 {
        assert gs[i] == tail[i - 1];
      } else {
        assert gs[i] == tail[i - 1] && gs[j] == tail[j - 1];
      }
    }
  }

  /** With the window read when each reply fires, no group answers twice
      within three consecutive replies, whatever the random draws. */
  lemma {:induction false} RepliesNeverRepeatWithinThree(last: seq<ResponseType>, draws: seq<nat>)
    requires |last| <= ReplyWindow
    ensures var gs := ReplyGroups(last, draws);
            forall i, j :: 0 <= j < i < |gs| && i - j <= 2 ==> gs[i] != gs[j]
    decreases |draws|
  {
    if draws != [] {
      var g := PickGroup(last, draws[0]);
      var next := Remember(last, g);
      var tail := ReplyGroups(next, draws[1..]);
      RepliesNeverRepeatWithinThree(next, draws[1..]);
      OpeningReplies(next, draws[1..]);
      ConsKeepsApart(g, next, tail);
      assert ReplyGroups(last, draws) == [g] + tail;
    }
  }

  /** The random draws and the fresh id one reply timer uses. */
  datatype ReplyDraw = ReplyDraw(group: nat, text: nat, id: string)

  function GroupDraws(ds: seq<ReplyDraw>): (r: seq<nat>)
    ensures |r| == |ds|
    ensures forall i :: 0 <= i < |ds| ==> r[i] == ds[i].group
  {
    if ds == [] then [] else [ds[0].group] + GroupDraws(ds[1..])
  }

  /** The pending replies fire one after another, each with its own draws;
      the result is the chat afterwards and the group each reply answered
      with. Once nothing is pending, further draws are not used. */
  function DeliverAll(s: AppState, ds: seq<ReplyDraw>): (r: (AppState, seq<ResponseType>))
    ensures |r.1| <= |ds| && |r.1| <= |s.pendingReplies|
    ensures |ds| <= |s.pendingReplies| ==> |r.1| == |ds| && r.0.pendingReplies == s.pendingReplies[|ds|..]
    decreases |ds|
  {
    if ds == [] || s.pendingReplies == [] then (s, [])
    else
      var s1 := DeliverReply(s, ds[0].group, ds[0].text, ds[0].id);
      var rest := DeliverAll(s1, ds[1..]);
      (rest.0, [s1.lastResponseTypes[0]] + rest.1)
  }

  /** The groups chosen by successive reply timers are the ones `ReplyGroups`
      computes from the window the chat starts with and the group draws. */
  lemma {:induction false} DeliverAllFollowsReplyGroups(s: AppState, ds: seq<ReplyDraw>)
    requires |ds| <= |s.pendingReplies|
    ensures DeliverAll(s, ds).1 == ReplyGroups(s.lastResponseTypes, GroupDraws(ds))
    decreases |ds|
  {
    if ds != [] {
      var s1 := DeliverReply(s, ds[0].group, ds[0].text, ds[0].id);
      var g := PickGroup(s.lastResponseTypes, ds[0].group);
      assert s1.lastResponseTypes == Remember(s.lastResponseTypes, g);
      DeliverAllFollowsReplyGroups(s1, ds[1..]);
      assert GroupDraws(ds)[1..] == GroupDraws(ds[1..]);
    }
  }

  /** So a chat whose windows are bounded never answers with the same group
      twice within three consecutive replies. */
  lemma DeliveredRepliesNeverRepeatWithinThree(s: AppState, ds: seq<ReplyDraw>)
    requires WindowsBounded(s) && |ds| <= |s.pendingReplies|
    ensures var gs := DeliverAll(s, ds).1;
            forall i, j :: 0 <= j < i < |gs| && i - j <= 2 ==> gs[i] != gs[j]
  {
    DeliverAllFollowsReplyGroups(s, ds);
    RepliesNeverRepeatWithinThree(s.lastResponseTypes, GroupDraws(ds));
  }
}
