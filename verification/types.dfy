/**
 The records the application passes around (src/types/index.ts), with the
 optional fields of TypeScript written as `Option`. Timestamps are left out:
 they are only ever formatted for display.
 */
module Types {

  /** A TypeScript optional value: `undefined` or a present value. */
  datatype Option<+T> = None | Some(value: T) {
    /** The present value, or `default` when absent. */
    function GetOr(default: T): T {
      match this
      case Some(v) => v
      case None => default
    }
  }

  /** A trusted contact; `id` is whatever the caller generated. */
  datatype Contact = Contact(id: string, name: string, phone: string, relation: string)

  /** A contact before it is given an id (`Omit<Contact, 'id'>`). */
  datatype ContactDraft = ContactDraft(name: string, phone: string, relation: string)

  datatype Sender = User | Ai

  datatype ChatMessage = ChatMessage(id: string, text: string, sender: Sender)

  datatype DisguiseMode = CalculatorDisguise | NotesDisguise

  /** How the disguise recognises the covert activation signal. */
  datatype TriggerPattern = TripleTap | Code | Gesture

  datatype AppSettings = AppSettings(
    disguiseMode: DisguiseMode,
    triggerPattern: TriggerPattern,
    triggerCode: Option<string>,
    soundEnabled: bool,
    darkMode: bool,
    autoLock: bool,
    autoLockTime: int)

  /** A position; the coordinates are the decimal renderings of the floats,
      taken as opaque text. */
  datatype Location = Location(latitude: string, longitude: string, address: Option<string>)

  datatype EmergencyAlert = EmergencyAlert(message: string, location: Location, contacts: seq<Contact>)
}
