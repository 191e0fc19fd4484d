/**
 * The profile form: the email, password and identification-number rules,
 * the required fields, and the store calls of submit and back (including
 * the edit-mode branch).
 */
module ProfileStep {
  import opened Wrappers
  import opened Text
  import opened Types
  import opened RegistrationContext

  // ---------------------------------------------------------------------------
  // Email: /^[^\s@]+@[^\s@]+\.[^\s@]+$/
  // ---------------------------------------------------------------------------

  /** `[^\s@]` */
  predicate IsRunChar(c: char) {
    !IsJsWhitespace(c) && c != '@'
  }

  /** `[^\s@]+` */
  predicate IsRun(s: string) {
    |s| > 0 && forall i :: 0 <= i < |s| ==> IsRunChar(s[i])
  }

  /**
   * `validateEmail`: a run, `@`, a run, `.`, a run, and nothing else, for some
   * choice of the `@` and the `.` (a simplified shape, not RFC 5322).
   */
  predicate ValidateEmail(s: string) {
    exists i, j :: 0 < i && i + 1 < j && j + 1 < |s| && s[i] == '@' && s[j] == '.' &&
      IsRun(s[..i]) && IsRun(s[i + 1..j]) && IsRun(s[j + 1..])
  }

  /** Any three runs put together around `@` and `.` form a valid address. */
  lemma EmailFromParts(local: string, host: string, tld: string)
    requires IsRun(local) && IsRun(host) && IsRun(tld)
    ensures ValidateEmail(local + "@" + host + "." + tld)
  {
    var s := local + "@" + host + "." + tld;
    var i, j := |local|, |local| + 1 + |host|;
    assert s[..i] == local;
    assert s[i + 1..j] == host;
    assert s[j + 1..] == tld;
    assert s[i] == '@' && s[j] == '.';
  }

  /** Occurrences of `c` in `s`. */
  function Count(s: string, c: char): nat {
    if s == [] then 0 else (if s[0] == c then 1 else 0) + Count(s[1..], c)
  }

  lemma {:induction false} CountAppend(a: string, b: string, c: char)
    ensures Count(a + b, c) == Count(a, c) + Count(b, c)
  {
    if a == [] {
      assert a + b == b;
    } else {
      assert (a + b)[1..] == a[1..] + b;
      CountAppend(a[1..], b, c);
    }
  }

  lemma {:induction false} CountRunAt(s: string)
    requires forall i :: 0 <= i < |s| ==> IsRunChar(s[i])
    ensures Count(s, '@') == 0
  {
    if s != [] {
      CountRunAt(s[1..]);
    }
  }

  /** The `@` and `.` positions of a valid address. */
  lemma EmailSplit(s: string) returns (i: nat, j: nat)
    requires ValidateEmail(s)
    ensures 0 < i && i + 1 < j && j + 1 < |s| && s[i] == '@' && s[j] == '.'
    ensures IsRun(s[..i]) && IsRun(s[i + 1..j]) && IsRun(s[j + 1..])
  {
    i, j :| 0 < i && i + 1 < j && j + 1 < |s| && s[i] == '@' && s[j] == '.' &&
      IsRun(s[..i]) && IsRun(s[i + 1..j]) && IsRun(s[j + 1..]);
  }

  /** A valid address holds exactly one `@`. */
  lemma EmailSingleAt(s: string)
    requires ValidateEmail(s)
    ensures Count(s, '@') == 1
  {
    var i, j := EmailSplit(s);
    var a, b, c := s[..i], s[i + 1..j], s[j + 1..];
    assert s == a + ("@" + (b + ("." + c)));
    CountAppend(a, "@" + (b + ("." + c)), '@');
    CountAppend("@", b + ("." + c), '@');
    CountAppend(b, "." + c, '@');
    CountAppend(".", c, '@');
    CountRunAt(a);
    CountRunAt(b);
    CountRunAt(c);
  }

  /** A valid address has no whitespace, starts with a run character and ends with one. */
  lemma EmailNoWhitespace(s: string)
    requires ValidateEmail(s)
    ensures IsRunChar(s[0]) && IsRunChar(s[|s| - 1])
    ensures forall k :: 0 <= k < |s| ==> !IsJsWhitespace(s[k])
  {
    var i, j := EmailSplit(s);
    forall k | 0 <= k < |s| ensures !IsJsWhitespace(s[k]) {
      if k < i {
        assert s[k] == s[..i][k];
      } else if i < k < j {
        assert s[k] == s[i + 1..j][k - i - 1];
      } else if j < k {
        assert s[k] == s[j + 1..][k - j - 1];
      }
    }
    assert s[0] == s[..i][0];
    assert s[|s| - 1] == s[j + 1..][|s| - j - 2];
  }

  // ---------------------------------------------------------------------------
  // Password: at least 8 characters, an ASCII letter and a digit
  // ---------------------------------------------------------------------------

  predicate HasLetter(s: string) {
    exists i :: 0 <= i < |s| && IsAsciiLetter(s[i])
  }

  predicate HasDigit(s: string) {
    exists i :: 0 <= i < |s| && IsDigit(s[i])
  }

  /** `validatePassword` */
  predicate ValidatePassword(s: string) {
    |s| >= 8 && HasLetter(s) && HasDigit(s)
  }

  /** `"abc123"` is too short; `"abcd1234"` passes. */
  lemma PasswordExamples()
    ensures !ValidatePassword("abc123")
    ensures ValidatePassword("abcd1234")
  {
    var p := "abcd1234";
    assert IsAsciiLetter(p[0]) && IsDigit(p[4]);
  }

  /** Letters alone or digits alone never pass, whatever the length. */
  lemma PasswordNeedsBothKinds(s: string)
    requires (forall i :: 0 <= i < |s| ==> IsAsciiLetter(s[i])) ||
             (forall i :: 0 <= i < |s| ==> IsDigit(s[i]))
    ensures !ValidatePassword(s)
  {
  }

  /** Adding characters on either side of a valid password keeps it valid. */
  lemma PasswordExtends(s: string, t: string)
    requires ValidatePassword(s)
    ensures ValidatePassword(s + t) && ValidatePassword(t + s)
  {
    var i :| 0 <= i < |s| && IsAsciiLetter(s[i]);
    var j :| 0 <= j < |s| && IsDigit(s[j]);
    assert (s + t)[i] == s[i] && (s + t)[j] == s[j];
    assert (t + s)[|t| + i] == s[i] && (t + s)[|t| + j] == s[j];
  }

  // ---------------------------------------------------------------------------
  // Identification number: 12 digits, separators ignored, no checksum
  // ---------------------------------------------------------------------------

  /** `validateIdentificationNumber`: the same rule for both roles. */
  predicate ValidateIdentificationNumber(s: string) {
    |Digits(s)| == 12
  }

  /** Separators anywhere in the number do not change the verdict. */
  lemma IdentificationIgnoresSeparators(a: string, c: char, b: string)
    requires !IsDigit(c)
    ensures ValidateIdentificationNumber(a + [c] + b) <==> ValidateIdentificationNumber(a + b)
  {
    DigitsIgnoreSeparator(a, c, b);
  }

  /** Every string of exactly 12 digits passes. */
  lemma TwelveDigitsValid(s: string)
    requires AllDigits(s) && |s| == 12
    ensures ValidateIdentificationNumber(s)
  {
    DigitsOfDigits(s);
  }

  // ---------------------------------------------------------------------------
  // The form
  // ---------------------------------------------------------------------------

  /** `ProfileStepData` as the form holds it. */
  datatype ProfileForm = ProfileForm(
    lastName: string,
    firstName: string,
    middleName: string,
    email: string,
    password: string,
    identificationNumber: string)

  /** The form library's `required`: the empty string fails. */
  predicate Required(s: string) {
    s != ""
  }

  /** All field rules: five required fields, three of them with a validator; `middleName` free. */
  predicate FormValid(f: ProfileForm) {
    Required(f.lastName) && Required(f.firstName) &&
    Required(f.email) && ValidateEmail(f.email) &&
    Required(f.password) && ValidatePassword(f.password) &&
    Required(f.identificationNumber) && ValidateIdentificationNumber(f.identificationNumber)
  }

  /** `middleName` is the one optional field: its value never decides validity. */
  lemma MiddleNameOptional(f: ProfileForm, m: string)
    ensures FormValid(f) <==> FormValid(f.(middleName := m))
  {
  }

  /** The validators already exclude the empty string: a valid form has its five fields filled. */
  lemma ValidFormFilled(f: ProfileForm)
    requires FormValid(f)
    ensures f.lastName != "" && f.firstName != "" && f.email != "" && f.password != ""
            && f.identificationNumber != ""
  {
  }

  /** The form's `defaultValues`, read from the record. */
  function FormOf(r: Record): ProfileForm {
    ProfileForm(r.lastName, r.firstName, r.middleName, r.email, r.password, r.identificationNumber)
  }

  /** The partial `onSubmit` writes: `{ ...formData, isRegistered: true }`. */
  function ProfileUpdate(f: ProfileForm): (p: Partial)
    ensures forall k :: Lookup(p, k).Some? <==>
      k in {LastNameKey, FirstNameKey, MiddleNameKey, EmailKey, PasswordKey,
            IdentificationNumberKey, IsRegisteredKey}
    ensures p.lastName == Some(f.lastName) && p.firstName == Some(f.firstName)
    ensures p.middleName == Some(f.middleName) && p.email == Some(f.email)
    ensures p.password == Some(f.password)
    ensures p.identificationNumber == Some(f.identificationNumber)
    ensures p.isRegistered == Some(true)
  {
    NoKeys.(lastName := Some(f.lastName), firstName := Some(f.firstName),
            middleName := Some(f.middleName), email := Some(f.email),
            password := Some(f.password), identificationNumber := Some(f.identificationNumber),
            isRegistered := Some(true))
  }

  /** Reopening the form after a submit shows exactly what was submitted; phone, terms and role are kept. */
  lemma SubmitThenReopen(r: Record, f: ProfileForm)
    ensures FormOf(Merge(r, ProfileUpdate(f))) == f
    ensures var m := Merge(r, ProfileUpdate(f));
      m.isRegistered && m.phone == r.phone && m.termsAccepted == r.termsAccepted && m.role == r.role
  {
  }

  /** After a submit, a reload resumes at COMPLETE. */
  lemma SubmitThenReloadComplete(r: Record, f: ProfileForm)
    ensures DeriveInitialStep(Reload(Some(Merge(r, ProfileUpdate(f))))) == COMPLETE
  {
  }

  /**
   * Submitting the form. The form library runs `onSubmit` only when every
   * field rule passes; `onSubmit` writes the fields with `isRegistered`,
   * leaves edit mode and moves one step on, from PROFILE to COMPLETE.
   */
  method Submit(store: Store, f: ProfileForm) returns (submitted: bool)
    requires store.Valid() && (store.editing || store.step == PROFILE)
    requires EditingOnlyAtProfile(store.editing, store.step) && DefaultObjectOnlyAtPhone(store.dataIsDefaultObject, store.step)
    modifies store
    ensures store.Valid() && EditingOnlyAtProfile(store.editing, store.step) && DefaultObjectOnlyAtPhone(store.dataIsDefaultObject, store.step)
    ensures submitted == FormValid(f)
    ensures submitted ==> !store.dataIsDefaultObject
    ensures !submitted ==> store.dataIsDefaultObject == old(store.dataIsDefaultObject)
    ensures submitted ==> store.data == Merge(old(store.data), ProfileUpdate(f))
                          && store.storage == Some(store.data)
                          && !store.editing && store.step == Next(old(store.step))
                          && store.step == COMPLETE
    ensures !submitted ==> store.data == old(store.data) && store.step == old(store.step)
                           && store.editing == old(store.editing) && store.storage == old(store.storage)
  {
    submitted := FormValid(f);
    if submitted {
      store.UpdateData(ProfileUpdate(f));
      store.SetIsEditing(false);
      store.NextStep();
    }
  }

  /** `handleBack`: in edit mode, leave it and go forward to COMPLETE; otherwise one step back. */
  method Back(store: Store)
    requires store.Valid() && (store.editing || store.step == PROFILE)
    requires EditingOnlyAtProfile(store.editing, store.step) && DefaultObjectOnlyAtPhone(store.dataIsDefaultObject, store.step)
    modifies store
    ensures store.Valid() && EditingOnlyAtProfile(store.editing, store.step) && DefaultObjectOnlyAtPhone(store.dataIsDefaultObject, store.step)
    ensures !store.editing
    ensures old(store.editing) ==> store.step == Next(old(store.step)) && store.step == COMPLETE
    ensures !old(store.editing) ==> store.step == Prev(old(store.step)) && store.step == OTP
    ensures store.data == old(store.data) && store.storage == old(store.storage)
    ensures store.dataIsDefaultObject == old(store.dataIsDefaultObject)
  {
    if store.editing {
      store.SetIsEditing(false);
      store.NextStep();
    } else {
      store.PrevStep();
    }
  }
}
