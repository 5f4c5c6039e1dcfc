/**
 The settings page (src/pages/Settings.tsx). Every control turns into a
 settings patch merged by the application state; the page decides which
 controls exist (the code field only under the code pattern, the auto-lock
 menu only while auto-lock is on, a gesture option that does nothing).
 */
module SettingsPage {
  import opened Types
  import Text
  import Ctx = AppContext
  import Calculator

  /** The keys of the settings record. */
  datatype SettingKey =
    | DisguiseModeKey | TriggerPatternKey | TriggerCodeKey
    | SoundEnabledKey | DarkModeKey | AutoLockKey | AutoLockTimeKey

  /** The keys whose value is a boolean. */
  predicate IsBooleanKey(k: SettingKey) {
    k == SoundEnabledKey || k == DarkModeKey || k == AutoLockKey
  }

  /** The patch `handleToggle` sends: the negated flag, or nothing at all
      when the key does not hold a boolean. */
  function TogglePatch(s: AppSettings, k: SettingKey): Ctx.SettingsPatch {
    match k
    case SoundEnabledKey => Ctx.EmptyPatch.(soundEnabled := Some(!s.soundEnabled))
    case DarkModeKey => Ctx.EmptyPatch.(darkMode := Some(!s.darkMode))
    case AutoLockKey => Ctx.EmptyPatch.(autoLock := Some(!s.autoLock))
    case _ => Ctx.EmptyPatch
  }

  /** `handleToggle`: flips a boolean setting, touches no other key, and
      leaves the settings alone for any other key. */
  function HandleToggle(s: AppSettings, k: SettingKey): (r: AppSettings)
    ensures !IsBooleanKey(k) ==> r == s
    ensures k == SoundEnabledKey ==> r == s.(soundEnabled := !s.soundEnabled)
    ensures k == DarkModeKey ==> r == s.(darkMode := !s.darkMode)
    ensures k == AutoLockKey ==> r == s.(autoLock := !s.autoLock)
  {
    Ctx.ApplyPatch(s, TogglePatch(s, k))
  }

  /** Toggling the same key twice restores the settings. */
  lemma ToggleTwiceRestores(s: AppSettings, k: SettingKey)
    ensures HandleToggle(HandleToggle(s, k), k) == s
  {
  }

  datatype PatternOption = TripleTapOption | CodeOption | GestureOption

  /** A click on a trigger-pattern row. The gesture row's handler is empty. */
  function HandlePatternClick(s: AppSettings, opt: PatternOption): (r: AppSettings)
    ensures opt == TripleTapOption ==> r == s.(triggerPattern := TripleTap)
    ensures opt == CodeOption ==> r == s.(triggerPattern := Code)
    ensures opt == GestureOption ==> r == s
  {
    match opt
    case TripleTapOption => Ctx.ApplyPatch(s, Ctx.EmptyPatch.(triggerPattern := Some(TripleTap)))
    case CodeOption => Ctx.ApplyPatch(s, Ctx.EmptyPatch.(triggerPattern := Some(Code)))
    case GestureOption => s
  }

  /** `handleTriggerCodeChange`: the field's raw text becomes the code. */
  function HandleTriggerCodeChange(s: AppSettings, text: string): (r: AppSettings)
    ensures r == s.(triggerCode := Some(text))
  {
    Ctx.ApplyPatch(s, Ctx.EmptyPatch.(triggerCode := Some(text)))
  }

  datatype AutoLockOption = ThirtySeconds | OneMinute | FiveMinutes | TenMinutes

  /** The seconds each menu entry stands for. */
  function OptionSeconds(o: AutoLockOption): nat {
    match o
    case ThirtySeconds => 30
    case OneMinute => 60
    case FiveMinutes => 300
    case TenMinutes => 600
  }

  /** The values the auto-lock menu offers. */
  predicate InMenu(t: int) {
    t == 30 || t == 60 || t == 300 || t == 600
  }

  /** `handleAutoLockTimeChange`: the select reports the option's value as
      text, and `parseInt` reads it back to the option's seconds. */
  function HandleAutoLockTimeChange(s: AppSettings, o: AutoLockOption): (r: AppSettings)
    ensures r == s.(autoLockTime := OptionSeconds(o))
    ensures InMenu(r.autoLockTime)
  {
    var text := Text.NatToString(OptionSeconds(o));
    Text.ParseNatToString(OptionSeconds(o));
    Ctx.ApplyPatch(s, Ctx.EmptyPatch.(autoLockTime := Some(Text.ParseNat(text))))
  }

  /** The disguise select (calculator or notes). */
  function HandleDisguiseChange(s: AppSettings, mode: DisguiseMode): (r: AppSettings)
    ensures r == s.(disguiseMode := mode)
  {
    Ctx.ApplyPatch(s, Ctx.EmptyPatch.(disguiseMode := Some(mode)))
  }

  /** The code field is rendered only under the code pattern. */
  predicate ShowCodeField(s: AppSettings) {
    s.triggerPattern == Code
  }

  /** The auto-lock menu is rendered only while auto-lock is on. */
  predicate ShowAutoLockTime(s: AppSettings) {
    s.autoLock
  }

  datatype SettingsEvent =
    | SwitchClicked(key: SettingKey)
    | PatternClicked(option: PatternOption)
    | CodeTyped(text: string)
    | AutoLockChosen(choice: AutoLockOption)
    | DisguiseChosen(mode: DisguiseMode)

  /** One interaction, counted only where the control is rendered: the three
      switches, the pattern rows, the code field under the code pattern, the
      auto-lock menu while auto-lock is on, and the disguise select. */
  function Interact(s: AppSettings, e: SettingsEvent): AppSettings {
    match e
    case SwitchClicked(k) => if IsBooleanKey(k) then HandleToggle(s, k) else s
    case PatternClicked(o) => HandlePatternClick(s, o)
    case CodeTyped(t) => if ShowCodeField(s) then HandleTriggerCodeChange(s, t) else s
    case AutoLockChosen(o) => if ShowAutoLockTime(s) then HandleAutoLockTimeChange(s, o) else s
    case DisguiseChosen(m) => HandleDisguiseChange(s, m)
  }

  function InteractAll(s: AppSettings, es: seq<SettingsEvent>): AppSettings
    decreases |es|
  {
    if es == [] then s else InteractAll(Interact(s, es[0]), es[1..])
  }

  /** The page cannot select the gesture pattern: starting from any other
      pattern, no sequence of interactions reaches it. */
  lemma {:induction false} NeverSelectsGesture(s: AppSettings, es: seq<SettingsEvent>)
    requires s.triggerPattern != Gesture
    ensures InteractAll(s, es).triggerPattern != Gesture
    decreases |es|
  {
    if es != [] {
      NeverSelectsGesture(Interact(s, es[0]), es[1..]);
    }
  }

  /** The auto-lock time only ever takes values of the menu. */
  lemma {:induction false} AutoLockTimeStaysInMenu(s: AppSettings, es: seq<SettingsEvent>)
    requires InMenu(s.autoLockTime)
    ensures InMenu(InteractAll(s, es).autoLockTime)
    decreases |es|
  {
    if es != [] {
      AutoLockTimeStaysInMenu(Interact(s, es[0]), es[1..]);
    }
  }

  /** The start-up settings meet both premises above. */
  lemma DefaultsInRange()
    ensures Ctx.DefaultSettings.triggerPattern != Gesture
    ensures InMenu(Ctx.DefaultSettings.autoLockTime)
  {
  }

  /** Clearing the code field disarms the calculator's code trigger: an
      empty code never matches. */
  lemma EmptyCodeDisarms(s: AppSettings)
    requires ShowCodeField(s)
    ensures !Calculator.CodeArmed(Interact(s, CodeTyped("")))
    ensures Calculator.CodeArmed(Interact(s, CodeTyped("911")))
  {
  }
}
