# EchoMind core, modelled in Dafny

EchoMind is a React app for crises. It hides behind a working calculator. A
covert signal typed on the calculator (three quick digit taps, or a secret
code) drops the disguise and opens an emergency flow. That flow alerts
trusted contacts, then hands over to a guided breathing exercise and a
support chat.

This project models the logic under the rendering as pure transition
functions over immutable records, and proves what the code promises:

- **Trigger detector** (`Calculator`): tap bursts with integer millisecond
  timestamps, the 1.5 s idle reset, the triple-tap and secret-code rules,
  and the display rules for digits and the decimal point.
- **Breathing session** (`BreathingCircle`, `BreathingSupport`): the
  four-phase cycle, the countdown, the cycle count, the reset on
  deactivation, `m:ss` formatting, and the page's active/completed flags
  composed with the circle.
- **Application state** (`AppContext`): disguise and emergency flags,
  contacts, the settings merge, chat messages, and the window of the last
  two reply groups.
- **Routing** (`Routing`): the redirect effect, the route table and the
  disguise guard.
- **Emergency flow and forms**: the step machine (`EmergencyActivation`),
  the contact picker (`ContactSelector`), the alert preview
  (`AlertPreview`), contact validation (`ContactsSetup`), the settings
  controls (`SettingsPage`) and the chat send guard (`AIChat`).

React's effects are modelled by when they run:

- An effect runs after an event only if one of its dependencies changed.
  Callback dependencies are taken as stable, although the code makes them
  anew on every render of the app state provider (see "Left out").
- Intervals and timeouts are events of their own: `IdleTimeout`,
  `PhaseInterval`, `SecondInterval`, `SendTimerFired`.
- Wall-clock time is an integer carried by the digit event.

Random choices and `Date.now()` ids are parameters. A random draw is
reduced modulo the number of candidates. The calculator's floating-point
arithmetic is an opaque function `compute`.

Shared helpers:

- `Text`: JavaScript's `trim` and decimal numerals with their inverse.
- `Sequences`: `filter`, subsequence, duplicate-freedom.
- `Types`: the records of `src/types/index.ts`.

Pausing the breathing exercise does not keep the remaining time: the
circle's reset effect runs on every deactivation, so a later start begins
again from the full two minutes (`BreathingSupport.PauseDiscardsProgress`).

## Model

| member | source | states |
|---|---|---|
| Calculator.InputDigit | src/components/Calculator/Calculator.tsx:42-60 | A press under 800 ms after the previous one extends the burst and any gap of 800 ms or more restarts it at 1; the press time is recorded; the digit replaces the display while an operand is awaited, replaces a lone "0", and is appended otherwise |
| Calculator.InputDecimal | src/components/Calculator/Calculator.tsx:62-72 | A point is always on the display afterwards: "0." when an operand is awaited, one appended when none is present, and no change when one already is |
| Calculator.HandleOperator | src/components/Calculator/Calculator.tsx:74-87 | The first operator stores the display as first operand; a later one shows and stores the pending result; the operator is recorded and an operand awaited; the tap burst is untouched |
| Calculator.CalculateResult | src/components/Calculator/Calculator.tsx:101-109 | Nothing happens unless both an operator and a first operand are set; otherwise the result is shown and operator, operand and waiting are cleared |
| Calculator.ClearDisplay | src/components/Calculator/Calculator.tsx:111-116 | Display "0", no operand, no operator, not waiting; the tap burst is kept |
| Calculator.ExpireIdle | src/components/Calculator/Calculator.tsx:16-24 | The idle timeout sets the tap count to 0 and changes nothing else |
| Calculator.TriggerEffect | src/components/Calculator/Calculator.tsx:27-40 | Fires exactly when a triple-tap burst of three or more is due or the display equals the armed non-empty code; a completed burst restarts the count at 0 |
| Calculator.TriggerEffectSettles | src/components/Calculator/Calculator.tsx:29-32 | The re-run caused by zeroing the count does not fire again |
| Calculator.Step | src/components/Calculator/Calculator.tsx:27-40 | An event fires exactly when the trigger is due in the state it leaves and the count or the display changed (an event that changes neither never fires); the state left is the handler's, with the count zeroed exactly when a triple-tap fired |
| Calculator.Mount | src/components/Calculator/Calculator.tsx:27-40 | On mount the trigger fires exactly when the armed code is "0" |
| Calculator.TripleTapKeepsCountBelowThree | src/components/Calculator/Calculator.tsx:29-50 | Under the triple-tap pattern the stored count stays below three |
| Calculator.TripleTapFiresIff | src/components/Calculator/Calculator.tsx:29-50 | Under the triple-tap pattern an event fires exactly when it is a digit pressed less than 800 ms after a burst of two |
| Calculator.TripleTapTimings | src/components/Calculator/Calculator.tsx:43-51 | Presses at 0/700/1400 ms fire on the third; at 0/900/1600 ms nothing fires and the count ends at 2 |
| Calculator.IdleTimeoutRestartsBurst | src/components/Calculator/Calculator.tsx:16-24 | An idle timeout between presses restarts the burst, so the next press counts 1 |
| Calculator.CodeFiresOnlyOnMatch | src/components/Calculator/Calculator.tsx:35-39 | Under the code pattern an event fires only if the code is armed and the display equals it |
| Calculator.UnarmedNeverFires | src/components/Calculator/Calculator.tsx:27-40 | Under the gesture pattern, or the code pattern with an absent or empty code, no event of any run fires |
| Calculator.CodeNineOneOne | src/components/Calculator/Calculator.tsx:35-39 | With code "911": typing 9, 1, 1 fires on the last key, "91" never fires, and a fourth 1 does not fire again |
| Calculator.TypedDigitsAreCanonical | src/components/Calculator/Calculator.tsx:53-59 | Digits typed on the cleared display show as a number is written: leading zeros swallowed, "0" stays "0" |
| Calculator.TypingExamples | src/components/Calculator/Calculator.tsx:53-59 | 9,1,1 shows "911"; 0 shows "0"; 0,0,7 shows "7" |
| Calculator.KeyEntryKeepsOneDot | src/components/Calculator/Calculator.tsx:62-72 | Digit, decimal, clear and idle events never put a second point on the display |
| Calculator.DecimalIdempotent | src/components/Calculator/Calculator.tsx:62-72 | A second decimal press changes nothing |
| Calculator.OperandsStayPaired | src/components/Calculator/Calculator.tsx:74-116 | A first operand is stored exactly when an operator is, after every handler |
| BreathingCircle.NextPhase | src/components/BreathingExercise/BreathingCircle.tsx:39-59 | The phases follow in, hold, out, rest and back to in: each step changes the phase, and it lands on "in" exactly from "rest" |
| BreathingCircle.PhaseTimeMs | src/components/BreathingExercise/BreathingCircle.tsx:93-101 | Each phase lasts a thousand times its seconds of the 4-4-6-2 pattern |
| BreathingCircle.CycleClosesAfterFour | src/components/BreathingExercise/BreathingCircle.tsx:21-27 | Four steps visit every phase once and return; their lengths add up to the 16 s cycle the count divides by |
| BreathingCircle.TotalCycles | src/components/BreathingExercise/BreathingCircle.tsx:21 | The number of whole 16 s cycles in the session: 16t <= 60d < 16(t+1) |
| BreathingCircle.DefaultSessionHasSevenCycles | src/components/BreathingExercise/BreathingCircle.tsx:13-21 | The default two-minute session has 7 cycles |
| BreathingCircle.Fresh | src/components/BreathingExercise/BreathingCircle.tsx:15-18 | The initial session: rest phase, count 0, full time, neither completed nor active |
| BreathingCircle.PhaseTick | src/components/BreathingExercise/BreathingCircle.tsx:38-61 | Only while running: the phase advances; only the rest-to-in edge counts, by one; reaching the total completes and notifies; time is untouched |
| BreathingCircle.SecondTick | src/components/BreathingExercise/BreathingCircle.tsx:64-74 | Only while running: one second less; reaching zero or below stores 0, completes and notifies; phase and count untouched |
| BreathingCircle.SetActive | src/components/BreathingExercise/BreathingCircle.tsx:29-91 | Activation starts at the in phase unless completed; deactivation restores the initial session; no change, no effect |
| BreathingCircle.FreshIsValid | src/components/BreathingExercise/BreathingCircle.tsx:15-18 | The initial session satisfies the circle's invariant |
| BreathingCircle.ValidPreserved | src/components/BreathingExercise/BreathingCircle.tsx:29-91 | Every tick and prop change keeps time within [0, 60d], an inactive circle fresh, a completed one out of cycles or time, the count within the total |
| BreathingCircle.TicksMonotone | src/components/BreathingExercise/BreathingCircle.tsx:38-74 | Along any run of ticks the count never falls, the time never rises, completion is never undone |
| BreathingCircle.CompletedIsFrozen | src/components/BreathingExercise/BreathingCircle.tsx:33-35 | Once completed, no run of ticks changes anything |
| BreathingCircle.CountdownCompletes | src/components/BreathingExercise/BreathingCircle.tsx:64-74 | A running circle with t seconds left completes after t second ticks, at time 0, with phase and count untouched |
| BreathingCircle.FullCycle | src/components/BreathingExercise/BreathingCircle.tsx:39-56 | Four phase ticks from "in" with cycles to go return to "in" with the count one higher |
| BreathingCircle.DeactivateForgetsProgress | src/components/BreathingExercise/BreathingCircle.tsx:84-91 | Deactivating then reactivating starts from the full time at cycle one, whatever the progress |
| BreathingCircle.FormatTime | src/components/BreathingExercise/BreathingCircle.tsx:113-117 | The clock text is digits, a colon, and exactly two digits |
| BreathingCircle.FormatTimeReadsBack | src/components/BreathingExercise/BreathingCircle.tsx:113-117 | Reading the clock text back gives the seconds it renders, for every number of seconds |
| BreathingCircle.FormatTimeExamples | src/components/BreathingExercise/BreathingCircle.tsx:113-117 | 120 renders "2:00", 65 renders "1:05", 59 renders "0:59" |
| BreathingCircle.Heading | src/components/BreathingExercise/BreathingCircle.tsx:172 | An inactive circle invites with "Ready to begin" |
| BreathingCircle.HeadingNamesPhase | src/components/BreathingExercise/BreathingCircle.tsx:103-111 | While active, two headings agree exactly when the phases do |
| BreathingSupport.HandleStart | src/pages/BreathingSupport.tsx:15-18 | Active and not completed |
| BreathingSupport.HandlePause | src/pages/BreathingSupport.tsx:20-22 | Inactive, completion kept |
| BreathingSupport.HandleReset | src/pages/BreathingSupport.tsx:24-27 | Inactive and not completed: the initial page |
| BreathingSupport.HandleComplete | src/pages/BreathingSupport.tsx:29-32 | Inactive and completed |
| BreathingSupport.ControlsByState | src/pages/BreathingSupport.tsx:76-121 | Completed offers only "Start Again"; otherwise Pause and Reset exactly while active and Start exactly while not, always labelled "Start" |
| BreathingSupport.NeverActiveAndCompleted | src/pages/BreathingSupport.tsx:12-32 | No sequence of button presses reaches active and completed at once, and no button completes the session: a page completed after presses was completed before them |
| BreathingSupport.DispatchKeepsInv | src/pages/BreathingSupport.tsx:69-73 | Every click and tick keeps the circle valid, following the page's active flag, never left completed |
| BreathingSupport.ReachableScreensConsistent | src/pages/BreathingSupport.tsx:12-73 | Every screen reachable from the initial one is consistent |
| BreathingSupport.CompletionShowsStartAgain | src/pages/BreathingSupport.tsx:69-93 | The completing tick leaves only "Start Again" on the page and the circle at its initial record |
| BreathingSupport.PauseDiscardsProgress | src/pages/BreathingSupport.tsx:20-22 | Pause then Start restarts the circle at "in", cycle one, full two minutes |
| AppContext.Init | src/context/AppContext.tsx:93-105 | Start-up: disguised, not in emergency, triple-tap with code "911", default contacts, greeting only, empty reply window |
| AppContext.ToggleDisguise | src/context/AppContext.tsx:107-109 | Flips the disguise flag and nothing else |
| AppContext.ToggleDisguiseInvolution | src/context/AppContext.tsx:107-109 | Toggling twice is the identity |
| AppContext.TriggerEmergency | src/context/AppContext.tsx:111-114 | In emergency and undisguised; nothing else changes |
| AppContext.ResolveEmergency | src/context/AppContext.tsx:116-118 | Clears the emergency flag only |
| AppContext.EmergencyRoundTrip | src/context/AppContext.tsx:111-118 | Triggering twice is triggering once; trigger then resolve leaves an undisguised app with contacts and settings intact |
| AppContext.AddContact | src/context/AppContext.tsx:120-126 | Exactly one contact with the given fields and id is appended; the old list is its prefix |
| AppContext.RemoveContact | src/context/AppContext.tsx:128-130 | No contact with the id remains, every other contact does with all its copies, in order; an unknown id changes nothing |
| AppContext.RemoveContactIdempotent | src/context/AppContext.tsx:128-130 | Removing twice is removing once |
| AppContext.AddThenRemove | src/context/AppContext.tsx:120-130 | Adding under a fresh id and removing that id restores the state |
| AppContext.ApplyPatch | src/context/AppContext.tsx:176-178 | Each key in the patch overwrites, each key absent from it is kept |
| AppContext.PatchLaws | src/context/AppContext.tsx:176-178 | The empty patch is the identity, a patch applied twice acts once, two patches compose into one |
| AppContext.UpdateSettings | src/context/AppContext.tsx:176-178 | Only the settings change, merged with the patch |
| AppContext.Responses | src/context/AppContext.tsx:51-88 | Every group offers four replies |
| AppContext.Available | src/context/AppContext.tsx:134-136 | A group is a candidate exactly when it is one of the four groups and not in the window |
| AppContext.PickGroup | src/context/AppContext.tsx:132-140 | The group is outside the avoided window unless every group is in it, so always outside a window of at most two |
| AppContext.NothingAvailable | src/context/AppContext.tsx:134-140 | The candidate list is empty only when every group is avoided |
| AppContext.WindowLeavesAChoice | src/context/AppContext.tsx:133-140 | A window of at most two of the four groups always leaves a candidate |
| AppContext.Remember | src/context/AppContext.tsx:142-146 | The new window is the chosen group followed by the old window, cut to two |
| AppContext.SendMessage | src/context/AppContext.tsx:152-161 | The user's message is appended and one reply is scheduled holding the current window; nothing else changes |
| AppContext.DeliverReplyAsWritten | src/context/AppContext.tsx:132-173 | The oldest reply fires choosing against the window captured at its send, updating the current window |
| AppContext.DeliverReply | src/context/AppContext.tsx:132-173 | The corrected reply chooses against the current window, so its group is not among the last two |
| AppContext.WindowsStayBounded | src/context/AppContext.tsx:142-146 | Sending and replying keep every window at two groups or fewer |
| AppContext.StaleWindowRepeatsGroup | src/context/AppContext.tsx:132-173 | From any chat with no reply given and none pending, two sends before the first reply: as written both replies come from empathy with the same text |
| AppContext.FreshWindowAvoidsRepeat | src/context/AppContext.tsx:132-173 | The same scenario with the corrected reply answers with empathy, then grounding |
| AppContext.OpeningReplies | src/context/AppContext.tsx:132-146 | With the current window read at each reply, the first reply is outside the starting window and the second differs from its latest group |
| AppContext.RepliesNeverRepeatWithinThree | src/context/AppContext.tsx:132-146 | With the current window read at each reply, no two replies at most two apart come from the same group |
| AppContext.DeliverAll | src/context/AppContext.tsx:163-173 | Reply timers fire in turn, one per pending reply, each taking the oldest |
| AppContext.DeliverAllFollowsReplyGroups | src/context/AppContext.tsx:132-173 | The groups answered by successive corrected replies are the ones computed from the starting window and the group draws |
| AppContext.DeliveredRepliesNeverRepeatWithinThree | src/context/AppContext.tsx:132-173 | In a chat with bounded windows, successive corrected replies never repeat a group within three |
| EmergencyActivation.HandleContinue | src/pages/EmergencyActivation.tsx:30-41 | Disabled while sending; otherwise initial to contacts, contacts to preview, preview starts the send, sent resolves the emergency and opens breathing |
| EmergencyActivation.HandleBack | src/pages/EmergencyActivation.tsx:43-49 | Contacts back to initial, preview back to contacts, no change elsewhere |
| EmergencyActivation.BackUndoesContinue | src/pages/EmergencyActivation.tsx:30-49 | Back and Continue undo each other on the steps Back was written for |
| EmergencyActivation.SendCompleted | src/pages/EmergencyActivation.tsx:55-63 | The send's end clears sending and reaches the sent step, keeping message and selection |
| EmergencyActivation.SendingOnlyOnPreview | src/pages/EmergencyActivation.tsx:30-63 | In every reachable flow a send is pending only on the preview step |
| EmergencyActivation.StepsOnlyAdvance | src/pages/EmergencyActivation.tsx:30-63 | Within one mount of the page, its controls never move the step backwards |
| EmergencyActivation.ButtonTextDistinct | src/pages/EmergencyActivation.tsx:72-77 | Each of the four steps has its own button caption |
| EmergencyActivation.ShowBack | src/pages/EmergencyActivation.tsx:83 | The back arrow shows exactly on the contacts and preview steps |
| EmergencyActivation.DangerButton | src/pages/EmergencyActivation.tsx:190 | The button is red exactly when it reads "Send Alert" |
| EmergencyActivation.Alert | src/pages/EmergencyActivation.tsx:65-70 | The alert carries the message, the mock location and exactly the selected contacts |
| EmergencyActivation.SentMessageInjective | src/pages/EmergencyActivation.tsx:162 | The confirmation, "contact" for one and "contacts" otherwise, tells distinct counts apart |
| EmergencyActivation.SelectorFeedsAlert | src/pages/EmergencyActivation.tsx:51-53 | After a click in the picker the alert's contacts are exactly those whose id is selected |
| ContactSelector.Toggle | src/components/EmergencyResponse/ContactSelector.tsx:19-24 | An id is selected afterwards exactly when it was before or is the toggled one, but not both; a new id goes to the end |
| ContactSelector.SelectedContacts | src/components/EmergencyResponse/ContactSelector.tsx:26-29 | Exactly the contacts whose id is selected, each as often as it is listed, as a subsequence of the contact list |
| ContactSelector.TickedIffReported | src/components/EmergencyResponse/ContactSelector.tsx:68-73 | A row shows a check mark exactly when its contact is reported to the parent |
| ContactSelector.ToggleNoDuplicates | src/components/EmergencyResponse/ContactSelector.tsx:21-23 | A toggle keeps the selection free of repeated ids |
| ContactSelector.ClicksNeverDuplicate | src/components/EmergencyResponse/ContactSelector.tsx:17-23 | No run of clicks from the empty selection selects an id twice |
| ContactSelector.ToggleTwice | src/components/EmergencyResponse/ContactSelector.tsx:21-23 | Toggling an id twice restores the selection as a set, and exactly when the id was unselected |
| AlertPreview.ContactCountLabel | src/components/EmergencyResponse/AlertPreview.tsx:39-43 | "No contacts selected", "1 contact selected", or the count followed by " contacts selected" |
| AlertPreview.CountLabelInjective | src/components/EmergencyResponse/AlertPreview.tsx:39-43 | Distinct counts give distinct labels |
| AlertPreview.ListedContacts | src/components/EmergencyResponse/AlertPreview.tsx:45-49 | One row per selected contact, in order, none for an empty selection |
| AlertPreview.LocationText | src/components/EmergencyResponse/AlertPreview.tsx:32 | A non-empty address is shown; otherwise "latitude, longitude" |
| AlertPreview.FallbackKeepsCoordinates | src/components/EmergencyResponse/AlertPreview.tsx:32 | The fallback text splits back into both coordinates |
| ContactsSetup.ValidationErrors | src/pages/ContactsSetup.tsx:35-49 | The name error is set exactly for a blank name; the phone error is "required" for a blank phone, and empty exactly for a dashed or ten-digit phone as typed |
| ContactsSetup.ValidateForm | src/pages/ContactsSetup.tsx:35-53 | The form shows the new errors and passes exactly for a non-blank name and a well-shaped phone |
| ContactsSetup.PhoneShapeNotBlank | src/pages/ContactsSetup.tsx:45-48 | A well-shaped phone is never blank |
| ContactsSetup.RelationIgnored | src/pages/ContactsSetup.tsx:35-53 | The relation never affects validation |
| ContactsSetup.PhoneExamples | src/pages/ContactsSetup.tsx:47-48 | "555-123-4567" and "5551234567" pass; "1-800-273-8255" and a space-padded number fail |
| ContactsSetup.HandleInputChange | src/pages/ContactsSetup.tsx:25-33 | The edited field takes the text and only its own error is cleared |
| ContactsSetup.HandleAddContact | src/pages/ContactsSetup.tsx:55-61 | An acceptable draft is added as typed and the form emptied and closed; otherwise only the errors change |
| ContactsSetup.HandleCancel | src/pages/ContactsSetup.tsx:63-67 | Empty fields, no errors, closed |
| ContactsSetup.Interact | src/pages/ContactsSetup.tsx:88-175 | The contact list changes only by saving an acceptable draft in the open form or by a delete while the form is closed and the list shown |
| ContactsSetup.ListedContactsWereValidated | src/pages/ContactsSetup.tsx:55-61 | Every contact on the list was there before or passed validation |
| SettingsPage.HandleToggle | src/pages/Settings.tsx:13-17 | A boolean key is flipped and nothing else touched; any other key leaves the settings alone |
| SettingsPage.ToggleTwiceRestores | src/pages/Settings.tsx:13-17 | Toggling the same key twice restores the settings |
| SettingsPage.HandlePatternClick | src/pages/Settings.tsx:122-159 | Triple-tap and code rows set only the pattern; the gesture row does nothing |
| SettingsPage.HandleTriggerCodeChange | src/pages/Settings.tsx:23-25 | The raw input becomes the code; nothing else changes |
| SettingsPage.HandleAutoLockTimeChange | src/pages/Settings.tsx:27-29 | The option's text parses back to its seconds, which become the auto-lock time, a menu value |
| SettingsPage.HandleDisguiseChange | src/pages/Settings.tsx:57-58 | Only the disguise mode changes |
| SettingsPage.NeverSelectsGesture | src/pages/Settings.tsx:157-159 | No run of interactions selects the gesture pattern |
| SettingsPage.AutoLockTimeStaysInMenu | src/pages/Settings.tsx:94-102 | The auto-lock time only takes 30, 60, 300 or 600 |
| SettingsPage.DefaultsInRange | src/context/AppContext.tsx:19-27 | The default settings use triple-tap and a menu auto-lock time |
| SettingsPage.EmptyCodeDisarms | src/pages/Settings.tsx:23-25 | Clearing the code field disarms the calculator's code trigger; typing "911" arms it |
| AIChat.SendEnabled | src/pages/AIChat.tsx:61 | The send button is enabled exactly for a non-blank input |
| AIChat.HandleSendMessage | src/pages/AIChat.tsx:15-20 | A blank input changes nothing; otherwise the trimmed text is sent and the input cleared |
| AIChat.SentTextIsTrimmed | src/pages/AIChat.tsx:15-18 | Exactly one user message is appended, non-empty, with no surrounding whitespace |
| AIChat.HandleKeyDown | src/pages/AIChat.tsx:22-27 | Enter without Shift sends; any other key or Shift+Enter does nothing |
| AIChat.EnterMatchesButton | src/pages/AIChat.tsx:22-27 | Enter does what the enabled button does, and nothing when it is disabled |
| Routing.RedirectTarget | src/App.tsx:21-27 | Disguised goes home; undisguised in an emergency at home goes to the emergency page; no redirect otherwise |
| Routing.RedirectIsStable | src/App.tsx:21-27 | The redirect never chains to a further path |
| Routing.Lookup | src/App.tsx:32-74 | A found route has the path asked for; no route means no entry has it |
| Routing.OnlyHomeIsOpen | src/App.tsx:33-73 | Among the known routes only home is unguarded |
| Routing.Guard | src/components/ProtectedRoute.tsx:9-17 | Disguised means a replacing redirect home; otherwise the wrapped page |
| Routing.GuardIgnoresEmergency | src/components/ProtectedRoute.tsx:10-16 | The rendered view does not depend on the emergency flag |
| Routing.DisguisedShowsOnlyDisguise | src/App.tsx:21-73 | While disguised only the disguise is on screen, whatever the path |
| Routing.UndisguisedShowsRoutedPage | src/App.tsx:21-73 | Undisguised, each known path shows its page, home in an emergency shows the emergency page |
| Routing.TripleTapOpensEmergencyPage | src/App.tsx:24-25 | Three quick taps under default settings fire, and the emergency they set shows the emergency page |
| Routing.HandOverAndLock | src/App.tsx:21-27 | Resolving and opening breathing shows the breathing page; locking shows the disguise from any path |
| Routing.ContinueAfterSentOpensBreathing | src/pages/EmergencyActivation.tsx:37-40 | Continue on the sent step ends the emergency and shows the breathing page |
| Routing.BackArrow | src/App.tsx:21-32 | Going back settles the redirect from the previous path; the emergency page is on screen exactly when it would be there, and it is a fresh page unless the path never left it |
| Routing.BackArrowRestartsEmergencyFlow | src/App.tsx:21-32 | The emergency page's back arrow returns home and the redirect shows the page again at its first step, default message, no selection, no send pending; locked, it shows the disguise |

## Left out

- Floating-point arithmetic: `performCalculation`, `parseFloat` and `String(result)` are the opaque `compute` parameter. The `+/-` and `%` keys are operators like the others, as the code wires them.
- Timer periods and React scheduling. The 1.5 s idle reset, the two intervals and the 2 s send delay are events; the model does not check that they arrive at their periods. React skips the idle effect when the count is set to the value it already has, so the exact 1500 ms timing is not modelled.
- BreathingCircle.PhaseTimeMs: the phase interval's period is read once, from the phase the effect sees when it starts. When a session starts that phase is "rest", so every phase lasts 2000 ms, not the 4-4-6-2 pattern; a restart of the effect mid-session (next line) reads whatever phase is current then. The model keeps the pattern's values and does not model interval periods.
- Callback identities: `triggerEmergency`, a dependency of the calculator's trigger effect, and `onComplete`, a dependency of the circle's main effect (`handleComplete` of the breathing page), are new functions on every render of the app state provider, which re-renders the routed page. The model runs an effect only when one of its other dependencies changed, so it leaves out two re-runs. The calculator's trigger effect fires again on a provider render while the display equals the code; the first firing already drops the disguise and so unmounts the calculator. The circle's main effect restarts on a provider render during an active session, for instance when a chat reply lands: the phase goes back to "in" and both intervals start over, while the cycle count and the remaining time are kept.
- BreathingCircle.PhaseTick: does not claim a single completion notification. Both completion paths call `onComplete` without a guard, so two ticks can each notify. The model only proves that completion stays until reset.
- Settings changed while the calculator is mounted: the calculator's trigger effect also depends on the pattern and the code, but the settings page and the disguise are never mounted together. The model fixes the settings for a calculator run.
- EmergencyActivation.HandleBack: no control of the page calls it. The header's back arrow, shown on the contacts and preview steps, calls `navigate(-1)` instead. That returns home, and the redirect brings the user back to a freshly mounted emergency page at its first step: default message, empty selection, any pending send dropped (`Routing.BackArrowRestartsEmergencyFlow`). So Back is not one of the page's events, and `EmergencyActivation.StepsOnlyAdvance` speaks of one mount of the page.
- The selection shown by ContactSelector lives in the picker and is lost when the picker remounts. The picker is shown only on the contacts step, which one mount of the page visits once; a remount of the whole page starts over with no selection.
- Randomness and generated ids: `Math.random` draws and `Date.now()` ids are parameters. Id uniqueness is not assumed, and removal drops every contact with the id.
- Regular expressions: the two phone shapes are character-class predicates.
- Locale and float formatting: timestamps (`toLocaleString`, `toLocaleTimeString`) are not modelled. The mock coordinates are their decimal texts.
- Presentation: animation, styling, icons, scrolling, `Button`, `Input`, `Card`, `AppHeader`, `BottomNavigation`, `PageContainer`, `CalculatorButton`, theme and Tailwind configuration.
- `src/pages/DisguisedHome.tsx` is not part of this model. Its only logic is a call to `toggleDisguise`, which `AppContext.ToggleDisguise` covers.
- The default helpline contact's number, `1-800-273-8255`, would itself fail the form's phone validation (`ContactsSetup.PhoneExamples`). Default contacts are not validated, and the model does not require them to be.

## Findings

| source | as written | input that shows it | evidently intended | confidence | as-written member | corrected member |
|---|---|---|---|---|---|---|
| src/context/AppContext.tsx:132-173 | The delayed reply calls the `getRandomResponse` of the render in which the message was sent. Its filter reads the `lastResponseTypes` of that render, while the window update uses the current value. | Send two messages within one second of each other from a fresh chat with the same random draws. Both replies avoid the same empty window and both come from the empathy group, with the same text. The window ends up as [empathy, empathy]. | Each reply avoids the groups of the last two replies actually given, so no group answers twice in a row. | medium (follows from React closure semantics; not executed) | AppContext.StaleWindowRepeatsGroup | AppContext.RepliesNeverRepeatWithinThree |
