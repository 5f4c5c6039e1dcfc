/**
 The contacts page form (src/pages/ContactsSetup.tsx): three text fields,
 two error messages, validation of the name and of the phone's two accepted
 shapes, and the add / cancel / remove actions on the application state.
 */
module ContactsSetup {
  import opened Types
  import Text
  import Ctx = AppContext

  const NameRequired := "Name is required"
  const PhoneRequired := "Phone number is required"
  const PhoneInvalid := "Enter a valid phone number (e.g., 555-123-4567)"

  datatype Errors = Errors(name: string, phone: string)

  const NoErrors := Errors("", "")

  const EmptyDraft := ContactDraft("", "", "")

  datatype Form = Form(draft: ContactDraft, errors: Errors, open: bool)

  const InitialForm := Form(EmptyDraft, NoErrors, false)

  /** `^\d{3}-\d{3}-\d{4}$`: twelve characters, dashes at 3 and 7, ASCII
      digits elsewhere. */
  predicate DashedPhone(p: string) {
    && |p| == 12
    && p[3] == '-' && p[7] == '-'
    && forall i :: 0 <= i < 12 && i != 3 && i != 7 ==> Text.IsDigit(p[i])
  }

  /** `^\d{10}$`: exactly ten ASCII digits. */
  predicate PlainPhone(p: string) {
    |p| == 10 && Text.AllDigits(p)
  }

  /** The error messages for a draft. The phone's shape is checked on the
      text as typed, not on its trimmed form; the relation is not checked. */
  function ValidationErrors(d: ContactDraft): (e: Errors)
    ensures e.name == "" <==> !Text.Blank(d.name)
    ensures e.name != "" ==> e.name == NameRequired
    ensures e.phone == "" <==> !Text.Blank(d.phone) && (DashedPhone(d.phone) || PlainPhone(d.phone))
    ensures Text.Blank(d.phone) ==> e.phone == PhoneRequired
    ensures !Text.Blank(d.phone) && e.phone != "" ==> e.phone == PhoneInvalid
  {
    var nameError := if Text.Trim(d.name) == "" then NameRequired else "";
    var phoneError :=
      if Text.Trim(d.phone) == "" then PhoneRequired
      else if !DashedPhone(d.phone) && !PlainPhone(d.phone) then PhoneInvalid
      else "";
    Errors(nameError, phoneError)
  }

  /** A draft the form accepts. */
  predicate Acceptable(d: ContactDraft) {
    !Text.Blank(d.name) && (DashedPhone(d.phone) || PlainPhone(d.phone))
  }

  /** `validateForm`: the form shows the new errors, and passes exactly when
      both are empty, which is exactly an acceptable draft. */
  function ValidateForm(f: Form): (r: (Form, bool))
    ensures r.0 == f.(errors := ValidationErrors(f.draft))
    ensures r.1 <==> Acceptable(f.draft)
  {
    var e := ValidationErrors(f.draft);
    PhoneShapeNotBlank(f.draft.phone);
    (f.(errors := e), e.name == "" && e.phone == "")
  }

  /** A well-shaped phone is never blank, so the "required" branch and the
      shape test never disagree. */
  lemma PhoneShapeNotBlank(p: string)
    ensures DashedPhone(p) || PlainPhone(p) ==> !Text.Blank(p)
  {
    if DashedPhone(p) || PlainPhone(p) {
      assert Text.IsDigit(p[0]);
    }
  }

  /** The relation never decides acceptance. */
  lemma RelationIgnored(d: ContactDraft, relation: string)
    ensures Acceptable(d.(relation := relation)) == Acceptable(d)
    ensures ValidationErrors(d.(relation := relation)) == ValidationErrors(d)
  {
  }

  /** The documented examples: the two shapes pass, the toll-free helpline
      number (the third default contact's) does not, and neither does a
      padded number. */
  lemma PhoneExamples()
    ensures DashedPhone("555-123-4567")
    ensures PlainPhone("5551234567")
    ensures !DashedPhone("1-800-273-8255") && !PlainPhone("1-800-273-8255")
    ensures !DashedPhone(" 555-123-4567") && !PlainPhone(" 555-123-4567")
  {
    assert "1-800-273-8255"[1] == '-';
  }

  datatype Field = NameField | PhoneField | RelationField

  /** `handleInputChange`: the edited field takes the new text and its own
      error (name and phone have one) is cleared; nothing else changes. */
  function HandleInputChange(f: Form, field: Field, value: string): (r: Form)
    ensures field == NameField ==> r == f.(draft := f.draft.(name := value), errors := f.errors.(name := ""))
    ensures field == PhoneField ==> r == f.(draft := f.draft.(phone := value), errors := f.errors.(phone := ""))
    ensures field == RelationField ==> r == f.(draft := f.draft.(relation := value))
  {
    match field
    case NameField =>
      var e := if f.errors.name != "" then f.errors.(name := "") else f.errors;
      f.(draft := f.draft.(name := value), errors := e)
    case PhoneField =>
      var e := if f.errors.phone != "" then f.errors.(phone := "") else f.errors;
      f.(draft := f.draft.(phone := value), errors := e)
    case RelationField =>
      f.(draft := f.draft.(relation := value))
  }

  /** `handleAddContact`: an acceptable draft is added under the given id,
      as typed, and the form is emptied and closed; otherwise only the
      errors change. */
  function HandleAddContact(f: Form, s: Ctx.AppState, id: string): (r: (Form, Ctx.AppState))
    ensures Acceptable(f.draft) ==> r == (Form(EmptyDraft, ValidationErrors(f.draft), false), Ctx.AddContact(s, f.draft, id))
    ensures !Acceptable(f.draft) ==> r.1 == s && r.0 == f.(errors := ValidationErrors(f.draft))
  {
    var (checked, ok) := ValidateForm(f);
    if ok then (checked.(draft := EmptyDraft, open := false), Ctx.AddContact(s, f.draft, id))
    else (checked, s)
  }

  /** `handleCancel`: empty fields, no errors, closed. */
  function HandleCancel(f: Form): (r: Form)
    ensures r == InitialForm
  {
    Form(EmptyDraft, NoErrors, false)
  }

  datatype PageEvent =
    | OpenClicked
    | Typed(field: Field, value: string)
    | AddClicked(id: string)
    | CancelClicked
    | RemoveClicked(id: string)

  /** One interaction with the page: the form's controls act only while it
      is open, and the contact list with its delete buttons is shown only
      while it is closed. */
  function Interact(f: Form, s: Ctx.AppState, e: PageEvent): (r: (Form, Ctx.AppState))
    ensures r.1 == s || (e.AddClicked? && f.open && Acceptable(f.draft)) || (e.RemoveClicked? && !f.open)
  {
    match e
    case OpenClicked => (f.(open := true), s)
    case Typed(field, v) => if f.open then (HandleInputChange(f, field, v), s) else (f, s)
    case AddClicked(id) => if f.open then HandleAddContact(f, s, id) else (f, s)
    case CancelClicked => if f.open then (HandleCancel(f), s) else (f, s)
    case RemoveClicked(id) => if f.open then (f, s) else (f, Ctx.RemoveContact(s, id))
  }

  function InteractAll(f: Form, s: Ctx.AppState, es: seq<PageEvent>): Ctx.AppState
    decreases |es|
  {
    if es == [] then s
    else
      var (f1, s1) := Interact(f, s, es[0]);
      InteractAll(f1, s1, es[1..])
  }

  /** Every contact on the list either was there before or came through the
      form with a non-blank name and a phone of one of the two shapes. */
  lemma {:induction false} ListedContactsWereValidated(f: Form, s: Ctx.AppState, es: seq<PageEvent>)
    ensures forall c | c in InteractAll(f, s, es).contacts ::
              c in s.contacts || Acceptable(ContactDraft(c.name, c.phone, c.relation))
    decreases |es|
  {
    if es != [] {
      var (f1, s1) := Interact(f, s, es[0]);
      ListedContactsWereValidated(f1, s1, es[1..]);
      forall c | c in s1.contacts
        ensures c in s.contacts || Acceptable(ContactDraft(c.name, c.phone, c.relation))
      {
        if es[0].AddClicked? && f.open && Acceptable(f.draft) {
          assert s1.contacts == s.contacts + [Contact(es[0].id, f.draft.name, f.draft.phone, f.draft.relation)];
        }
      }
    }
  }
}
