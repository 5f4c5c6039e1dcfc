/**
 The alert preview card (src/components/EmergencyResponse/AlertPreview.tsx):
 the pluralised count of selected contacts, the list shown under it and the
 location line. The timestamp line is locale formatting and is not part of
 this model.
 */
module AlertPreview {
  import opened Types
  import Text

  const NoneSelected := "No contacts selected"
  const OneSelected := "1 contact selected"
  const ManySuffix := " contacts selected"

  /** The heading over the contact list for `n` selected contacts. */
  function ContactCountLabel(n: nat): (r: string)
    ensures n == 0 ==> r == NoneSelected
    ensures n == 1 ==> r == OneSelected
    ensures n >= 2 ==> r == Text.NatToString(n) + ManySuffix
  {
    if n == 0 then NoneSelected
    else if n == 1 then OneSelected
    else Text.NatToString(n) + ManySuffix
  }

  /** Distinct counts get distinct labels, so the label always tells how many
      contacts will be alerted. */
  lemma CountLabelInjective(a: nat, b: nat)
    ensures ContactCountLabel(a) == ContactCountLabel(b) ==> a == b
  {
    if ContactCountLabel(a) == ContactCountLabel(b) {
      var la := ContactCountLabel(a);
      if a >= 2 && b >= 2 {
        var na := Text.NatToString(a);
        var nb := Text.NatToString(b);
        assert |na| == |nb|;
        assert na == la[..|na|];
        assert nb == la[..|nb|];
        Text.NatToStringInjective(a, b);
      } else if a == 0 || b == 0 {
        LabelHeadIsDigitUnlessZero(a);
        LabelHeadIsDigitUnlessZero(b);
      } else if a == 1 || b == 1 {
        assert |ContactCountLabel(a)| == |ContactCountLabel(b)|;
      }
    }
  }

  lemma LabelHeadIsDigitUnlessZero(n: nat)
    ensures |ContactCountLabel(n)| > 0
    ensures Text.IsDigit(ContactCountLabel(n)[0]) <==> n > 0
  {
    if n >= 2 {
      assert ContactCountLabel(n)[0] == Text.NatToString(n)[0];
    }
  }

  /** The rows under the label: one per contact, in order, and none at all
      for an empty selection. */
  function ListedContacts(alert: EmergencyAlert): (rows: seq<Contact>)
    ensures |rows| == |alert.contacts|
    ensures forall i :: 0 <= i < |rows| ==> rows[i] == alert.contacts[i]
  {
    if |alert.contacts| > 0 then alert.contacts else []
  }

  /** `address || "lat, lon"`: an absent or empty address falls back to the
      coordinates. */
  function LocationText(loc: Location): (r: string)
    ensures loc.address.Some? && loc.address.value != "" ==> r == loc.address.value
    ensures loc.address.None? || loc.address.value == "" ==> r == loc.latitude + ", " + loc.longitude
  {
    if loc.address.Some? && loc.address.value != "" then loc.address.value
    else loc.latitude + ", " + loc.longitude
  }

  /** The position of the first `c` in `s`, or |s| when there is none. */
  function FirstIndex(s: string, c: char): (i: nat)
    ensures i <= |s|
    ensures forall k :: 0 <= k < i ==> s[k] != c
    ensures i < |s| ==> s[i] == c
  {
    if s == [] then 0 else if s[0] == c then 0 else 1 + FirstIndex(s[1..], c)
  }

  /** The coordinates read back from the fallback text. */
  function SplitCoordinates(t: string): (string, string) {
    var i := FirstIndex(t, ',');
    if i + 2 <= |t| then (t[..i], t[i + 2..]) else (t, "")
  }

  /** Without an address, the location line carries both coordinates
      without loss (a rendered number never contains a comma). */
  lemma FallbackKeepsCoordinates(loc: Location)
    requires loc.address.None? || loc.address.value == ""
    requires ',' !in loc.latitude
    ensures SplitCoordinates(LocationText(loc)) == (loc.latitude, loc.longitude)
  {
    var t := LocationText(loc);
    var n := |loc.latitude|;
    assert t[n] == ',';
    forall k | 0 <= k < n ensures t[k] != ',' {
      assert t[k] == loc.latitude[k];
    }
    FirstIndexAt(t, ',', n);
    assert t[..n] == loc.latitude;
    assert t[n + 2..] == loc.longitude;
  }

  lemma {:induction false} FirstIndexAt(s: string, c: char, n: nat)
    requires n < |s| && s[n] == c
    requires forall k :: 0 <= k < n ==> s[k] != c
    ensures FirstIndex(s, c) == n
  {
    if n > 0 {
      FirstIndexAt(s[1..], c, n - 1);
    }
  }
}
