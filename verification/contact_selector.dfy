/**
 The contact picker of the emergency flow
 (src/components/EmergencyResponse/ContactSelector.tsx): a list of selected
 ids toggled by clicks, and the contacts it reports to its parent, which are
 the contacts whose id is selected, in contact-list order.
 */
module ContactSelector {
  import opened Types
  import opened Sequences

  /** The selection on mount. */
  const NoSelection: seq<string> := []

  /** `toggleContact`: a selected id is dropped, any other id is appended.
      Afterwards an id is selected exactly when it was selected before or is
      the toggled one, but not both. */
  function Toggle(selection: seq<string>, id: string): (r: seq<string>)
    ensures forall x :: x in r <==> (x in selection) != (x == id)
    ensures id !in selection ==> r == selection + [id]
    ensures id in selection ==> IsSubsequence(r, selection)
  {
    FilterIsSubsequence(selection, (x: string) => x != id);
    if id in selection then Filter(selection, (x: string) => x != id) else selection + [id]
  }

  /** The list handed to `onSelectionChange`: exactly the contacts whose id
      is selected, keeping their order in the contact list. */
  function SelectedContacts(contacts: seq<Contact>, selection: seq<string>): (r: seq<Contact>)
    ensures forall c :: c in r <==> c in contacts && c.id in selection
    ensures IsSubsequence(r, contacts)
    ensures forall c :: multiset(r)[c] == if c.id in selection then multiset(contacts)[c] else 0
    ensures selection == [] ==> r == []
  {
    FilterIsSubsequence(contacts, (c: Contact) => c.id in selection);
    FilterMultiplicity(contacts, (c: Contact) => c.id in selection);
    Filter(contacts, (c: Contact) => c.id in selection)
  }

  /** Whether a contact's row shows the check mark. */
  predicate Ticked(selection: seq<string>, c: Contact) {
    c.id in selection
  }

  /** A row is ticked exactly when its contact is reported to the parent. */
  lemma TickedIffReported(contacts: seq<Contact>, selection: seq<string>, c: Contact)
    requires c in contacts
    ensures Ticked(selection, c) <==> c in SelectedContacts(contacts, selection)
  {
  }

  /** A toggle keeps the selection free of repeated ids. */
  lemma ToggleNoDuplicates(selection: seq<string>, id: string)
    requires NoDuplicates(selection)
    ensures NoDuplicates(Toggle(selection, id))
  {
    if id in selection {
      FilterNoDuplicates(selection, (x: string) => x != id);
    } else {
      SnocNoDuplicates(selection, id);
    }
  }

  function ToggleAll(selection: seq<string>, ids: seq<string>): seq<string>
    decreases |ids|
  {
    if ids == [] then selection else ToggleAll(Toggle(selection, ids[0]), ids[1..])
  }

  /** Any run of clicks from the empty selection leaves no id selected twice. */
  lemma {:induction false} ClicksNeverDuplicate(selection: seq<string>, ids: seq<string>)
    requires NoDuplicates(selection)
    ensures NoDuplicates(ToggleAll(selection, ids))
    decreases |ids|
  {
    if ids != [] {
      ToggleNoDuplicates(selection, ids[0]);
      ClicksNeverDuplicate(Toggle(selection, ids[0]), ids[1..]);
    }
  }

  /** Clicking the same contact twice restores the selection: exactly when
      the id was not selected; as a set of ids otherwise (the id moves to
      the end). */
  lemma ToggleTwice(selection: seq<string>, id: string)
    requires NoDuplicates(selection)
    ensures forall x :: x in Toggle(Toggle(selection, id), id) <==> x in selection
    ensures id !in selection ==> Toggle(Toggle(selection, id), id) == selection
  {
    if id !in selection {
      var keep := (x: string) => x != id;
      FilterAppend(selection, [id], keep);
      assert Filter([id], keep) == [];
      assert Filter(selection, keep) == selection;
    }
  }
}
