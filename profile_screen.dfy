/**
 * The profile screen shown at COMPLETE: the displayed name, initials and
 * role label, the edit action and the confirmed logout.
 */
module ProfileScreen {
  import opened Wrappers
  import opened Text
  import opened Types
  import opened RegistrationContext

  /** `.filter(Boolean)` on strings: the non-empty ones, in order. */
  function NonEmpty(parts: seq<string>): (r: seq<string>)
    ensures |r| <= |parts|
    ensures forall i :: 0 <= i < |r| ==> r[i] != "" && r[i] in parts
    ensures forall i :: 0 <= i < |parts| && parts[i] != "" ==> parts[i] in r
  {
    if parts == [] then []
    else (if parts[0] != "" then [parts[0]] else []) + NonEmpty(parts[1..])
  }

  /** `.join(sep)` */
  function JoinWith(parts: seq<string>, sep: char): string {
    if parts == [] then ""
    else if |parts| == 1 then parts[0]
    else parts[0] + [sep] + JoinWith(parts[1..], sep)
  }

  /** `.split(sep)` */
  function Split(s: string, sep: char): (r: seq<string>)
    ensures |r| >= 1
  {
    if s == [] then [""]
    else if s[0] == sep then [""] + Split(s[1..], sep)
    else var rest := Split(s[1..], sep); [[s[0]] + rest[0]] + rest[1..]
  }

  predicate Free(w: string, sep: char) {
    forall i :: 0 <= i < |w| ==> w[i] != sep
  }

  lemma {:induction false} SplitWord(w: string, sep: char)
    requires Free(w, sep)
    ensures Split(w, sep) == [w]
  {
    if w != [] {
      SplitWord(w[1..], sep);
      assert [w[0]] + w[1..] == w;
    }
  }

  lemma {:induction false} SplitWordThenSep(w: string, sep: char, rest: string)
    requires Free(w, sep)
    ensures Split(w + [sep] + rest, sep) == [w] + Split(rest, sep)
  {
    if w == [] {
      assert w + [sep] + rest == [sep] + rest;
    } else {
      var s := w + [sep] + rest;
      assert s[0] == w[0] && s[1..] == w[1..] + [sep] + rest;
      SplitWordThenSep(w[1..], sep, rest);
      assert [w[0]] + w[1..] == w;
    }
  }

  /** Splitting a join gives back the parts when none contains the separator. */
  lemma {:induction false} SplitJoin(parts: seq<string>, sep: char)
    requires |parts| >= 1
    requires forall i :: 0 <= i < |parts| ==> Free(parts[i], sep)
    ensures Split(JoinWith(parts, sep), sep) == parts
  {
    if |parts| == 1 {
      SplitWord(parts[0], sep);
    } else {
      SplitWordThenSep(parts[0], sep, JoinWith(parts[1..], sep));
      SplitJoin(parts[1..], sep);
    }
  }

  /** `fullName`: last, first and middle name, the empty ones left out, joined by single spaces. */
  function FullName(r: Record): string {
    JoinWith(NonEmpty([r.lastName, r.firstName, r.middleName]), ' ')
  }

  /** The filter over the three names, spelled out. */
  lemma NonEmptyOfThree(a: string, b: string, c: string)
    ensures NonEmpty([a, b, c]) ==
      (if a != "" then [a] else []) + (if b != "" then [b] else []) + (if c != "" then [c] else [])
  {
    assert [a, b, c][1..] == [b, c];
    assert [b, c][1..] == [c];
    assert [c][1..] == [];
    assert NonEmpty([c]) == (if c != "" then [c] else []);
    assert NonEmpty([b, c]) == (if b != "" then [b] else []) + NonEmpty([c]);
    assert NonEmpty([a, b, c]) == (if a != "" then [a] else []) + NonEmpty([b, c]);
  }

  lemma JoinNotShorter(parts: seq<string>, sep: char)
    requires parts != []
    ensures |JoinWith(parts, sep)| >= |parts[0]|
  {
    if |parts| > 1 {
      var rest := JoinWith(parts[1..], sep);
      assert JoinWith(parts, sep) == parts[0] + [sep] + rest;
      assert |parts[0] + [sep] + rest| == |parts[0]| + 1 + |rest|;
    }
  }

  /** The displayed name is empty exactly when all three names are. */
  lemma FullNameEmptyIff(r: Record)
    ensures FullName(r) == "" <==> r.lastName == "" && r.firstName == "" && r.middleName == ""
  {
    NonEmptyOfThree(r.lastName, r.firstName, r.middleName);
    var parts := NonEmpty([r.lastName, r.firstName, r.middleName]);
    if parts != [] {
      JoinNotShorter(parts, ' ');
    }
  }

  /** With space-free names, splitting the displayed name on spaces recovers the non-empty names in order. */
  lemma FullNameSplits(r: Record)
    requires Free(r.lastName, ' ') && Free(r.firstName, ' ') && Free(r.middleName, ' ')
    requires r.lastName != "" || r.firstName != "" || r.middleName != ""
    ensures Split(FullName(r), ' ') == NonEmpty([r.lastName, r.firstName, r.middleName])
  {
    NonEmptyOfThree(r.lastName, r.firstName, r.middleName);
    var parts := NonEmpty([r.lastName, r.firstName, r.middleName]);
    assert forall i :: 0 <= i < |parts| ==> parts[i] in [r.lastName, r.firstName, r.middleName];
    SplitJoin(parts, ' ');
  }

  /** `s[0] || ''`: the first character, or nothing for the empty string. */
  function Initial(s: string): string {
    if s == "" then "" else [s[0]]
  }

  /** `initials`: first letters of first and last name, upper-cased (ASCII only). */
  function Initials(r: Record): string {
    UpperAscii(Initial(r.firstName) + Initial(r.lastName))
  }

  /** One character per non-empty name, first name first, so at most two. */
  lemma InitialsShape(r: Record)
    ensures |Initials(r)| == (if r.firstName != "" then 1 else 0) + (if r.lastName != "" then 1 else 0)
    ensures |Initials(r)| <= 2
    ensures r.firstName != "" ==> Initials(r)[0] == AsciiUpper(r.firstName[0])
    ensures r.lastName != "" ==> Initials(r)[|Initials(r)| - 1] == AsciiUpper(r.lastName[0])
  {
  }

  datatype RoleLabel = CustomerLabel | CarrierLabel

  /** `roleLabel`: the customer label exactly for the customer role. */
  function RoleLabelOf(role: Role): (l: RoleLabel)
    ensures l == CustomerLabel <==> RoleName(role) == "customer"
  {
    if RoleName(role) == "customer" then CustomerLabel else CarrierLabel
  }

  /** `handleEdit`: edit mode on, and the jump back to PROFILE. */
  method HandleEdit(store: Store)
    requires store.Valid() && !store.editing && store.step == COMPLETE
    requires DefaultObjectOnlyAtPhone(store.dataIsDefaultObject, store.step)
    modifies store
    ensures store.Valid() && EditingOnlyAtProfile(store.editing, store.step) && DefaultObjectOnlyAtPhone(store.dataIsDefaultObject, store.step)
    ensures store.editing && store.step == PROFILE
    ensures store.data == old(store.data) && store.storage == old(store.storage)
    ensures store.dataIsDefaultObject == old(store.dataIsDefaultObject)
  {
    store.SetIsEditing(true);
    store.SetStep(PROFILE);
  }

  /** The logout confirmation flag: logout happens only from inside the dialog. */
  class LogoutDialog {
    var open: bool

    constructor ()
      ensures !open
    {
      open := false;
    }

    /** The logout buttons open the dialog; nothing else changes. */
    method Open()
      modifies this
      ensures open
    {
      open := true;
    }

    /** Cancel, or a click on the backdrop: the dialog closes, the store is untouched. */
    method Dismiss()
      modifies this
      ensures !open
    {
      open := false;
    }

    /**
     * The dialog's logout button: `reset`. The screen then unmounts, since
     * the step is PHONE, so the flag is not touched. At COMPLETE `data` is
     * never the `defaultData` object, so the mirroring effect always writes
     * the defaults back after the blob is removed.
     */
    method Confirm(store: Store)
      requires open && store.Valid() && !store.editing && store.step == COMPLETE
      requires DefaultObjectOnlyAtPhone(store.dataIsDefaultObject, store.step)
      modifies store
      ensures store.Valid() && EditingOnlyAtProfile(store.editing, store.step) && DefaultObjectOnlyAtPhone(store.dataIsDefaultObject, store.step)
      ensures store.data == DefaultData && store.step == PHONE && !store.editing
      ensures store.storage == Some(DefaultData) && store.dataIsDefaultObject
      ensures DeriveInitialStep(Reload(store.storage)) == PHONE
      ensures open
    {
      store.Reset();
      ReloadAfterReset(store.storage);
    }
  }
}
