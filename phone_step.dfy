/**
 * The phone screen: the `+7 (XXX) XXX-XX-XX` input mask, the 11-digit
 * check, the submit gate and the store calls issued on submit.
 */
module PhoneStep {
  import opened Wrappers
  import opened Text
  import opened Types
  import opened RegistrationContext

  /** The mask applied to a string of digits `d` (the branches of `formatPhone`). */
  function FormatDigits(d: string): (f: string)
    ensures |f| <= 18  // the length of `+7 (XXX) XXX-XX-XX`
    ensures f == "" <==> d == ""
  {
    if |d| == 0 then ""
    else if |d| <= 1 then "+7 (" + d
    else if |d| <= 4 then "+7 (" + d[1..]
    else if |d| <= 7 then "+7 (" + d[1..4] + ") " + d[4..]
    else if |d| <= 9 then "+7 (" + d[1..4] + ") " + d[4..7] + "-" + d[7..]
    else "+7 (" + d[1..4] + ") " + d[4..7] + "-" + d[7..9] + "-" + d[9..Min(|d|, 11)]
  }

  /** `formatPhone`: the mask applied to the input's digits. */
  function FormatPhone(value: string): (f: string)
    ensures |f| <= 18
    ensures f == "" <==> Digits(value) == ""
  {
    FormatDigits(Digits(value))
  }

  /** The digits a formatted phone carries: `7`, then input digits 1 to min(n, 11). */
  function MaskedDigits(d: string): string {
    if |d| == 0 then ""
    else if |d| == 1 then "7" + d
    else "7" + d[1..Min(|d|, 11)]
  }

  /** A separator without digits contributes no digits. */
  lemma DigitsSkip(sep: string, x: string)
    requires forall i :: 0 <= i < |sep| ==> !IsDigit(sep[i])
    ensures Digits(sep + x) == Digits(x)
  {
    DigitsAppend(sep, x);
    DigitsOfNonDigits(sep);
  }

  /** The `+7 (` prefix contributes exactly the digit `7`. */
  lemma DigitsPrefix(x: string)
    ensures Digits("+7 (" + x) == "7" + Digits(x)
  {
    assert "+7 (" + x == "+" + ("7" + (" (" + x));
    DigitsSkip("+", "7" + (" (" + x));
    DigitsAppend("7", " (" + x);
    DigitsSkip(" (", x);
  }

  /** A digit block followed by a separator and the rest. */
  lemma DigitsBlock(block: string, sep: string, rest: string)
    requires AllDigits(block)
    requires forall i :: 0 <= i < |sep| ==> !IsDigit(sep[i])
    ensures Digits(block + sep + rest) == block + Digits(rest)
  {
    assert block + sep + rest == block + (sep + rest);
    DigitsAppend(block, sep + rest);
    DigitsOfDigits(block);
    DigitsSkip(sep, rest);
  }

  /** The mask adds only the `+7` country code's `7` as a digit. */
  lemma DigitsOfFormat(d: string)
    requires AllDigits(d)
    ensures Digits(FormatDigits(d)) == MaskedDigits(d)
  {
    if |d| == 0 {
    } else if |d| <= 1 {
      DigitsPrefix(d);
      DigitsOfDigits(d);
    } else if |d| <= 4 {
      DigitsPrefix(d[1..]);
      DigitsOfDigits(d[1..]);
    } else if |d| <= 7 {
      DigitsOfShortMask(d);
    } else if |d| <= 9 {
      DigitsOfMediumMask(d);
    } else {
      DigitsOfFullMask(d);
    }
  }

  lemma DigitsOfShortMask(d: string)
    requires AllDigits(d) && 4 < |d| <= 7
    ensures Digits(FormatDigits(d)) == MaskedDigits(d)
  {
    var tail := ") " + d[4..];
    assert FormatDigits(d) == "+7 (" + (d[1..4] + tail);
    DigitsPrefix(d[1..4] + tail);
    assert d[1..4] + tail == d[1..4] + ") " + d[4..];
    DigitsBlock(d[1..4], ") ", d[4..]);
    DigitsOfDigits(d[4..]);
    assert d[1..4] + d[4..] == d[1..];
  }

  lemma DigitsOfMediumMask(d: string)
    requires AllDigits(d) && 7 < |d| <= 9
    ensures Digits(FormatDigits(d)) == MaskedDigits(d)
  {
    var r2 := d[4..7] + "-" + d[7..];
    var r1 := d[1..4] + ") " + r2;
    assert FormatDigits(d) == "+7 (" + r1;
    DigitsPrefix(r1);
    DigitsBlock(d[1..4], ") ", r2);
    DigitsBlock(d[4..7], "-", d[7..]);
    DigitsOfDigits(d[7..]);
    assert Digits(r1) == d[1..4] + (d[4..7] + d[7..]);
    assert Min(|d|, 11) == |d|;
    var m := d[1..4] + (d[4..7] + d[7..]);
    assert |m| == |d| - 1;
    forall i | 0 <= i < |m|
      ensures m[i] == d[1..|d|][i]
    {
    }
    assert m == d[1..|d|];
  }

  lemma DigitsOfFullMask(d: string)
    requires AllDigits(d) && 9 < |d|
    ensures Digits(FormatDigits(d)) == MaskedDigits(d)
  {
    var m := Min(|d|, 11);
    var r3 := d[7..9] + "-" + d[9..m];
    var r2 := d[4..7] + "-" + r3;
    var r1 := d[1..4] + ") " + r2;
    assert FormatDigits(d) == "+7 (" + r1;
    DigitsPrefix(r1);
    DigitsBlock(d[1..4], ") ", r2);
    DigitsBlock(d[4..7], "-", r3);
    DigitsBlock(d[7..9], "-", d[9..m]);
    DigitsOfDigits(d[9..m]);
    assert Digits(r1) == d[1..4] + (d[4..7] + (d[7..9] + d[9..m]));
    var t := d[1..4] + (d[4..7] + (d[7..9] + d[9..m]));
    assert |t| == m - 1;
    forall i | 0 <= i < |t|
      ensures t[i] == d[1..m][i]
    {
    }
    assert t == d[1..m];
  }

  /** `formatPhone` ignores every non-digit of its input. */
  lemma FormatIgnoresNonDigits(a: string, b: string)
    requires Digits(a) == Digits(b)
    ensures FormatPhone(a) == FormatPhone(b)
  {
  }

  /** An input without digits formats to the empty string. */
  lemma FormatNoDigits(value: string)
    requires Digits(value) == []
    ensures FormatPhone(value) == ""
  {
  }

  /** The digit sequence of the formatted phone, for an input with n >= 2 digits. */
  lemma FormatKeepsDigits(value: string)
    requires |Digits(value)| >= 2
    ensures Digits(FormatPhone(value)) == "7" + Digits(value)[1..Min(|Digits(value)|, 11)]
  {
    DigitsOfFormat(Digits(value));
  }

  /** Formatting an already formatted string returns it unchanged. */
  lemma FormatIdempotent(value: string)
    ensures FormatPhone(FormatPhone(value)) == FormatPhone(value)
  {
    var d := Digits(value);
    DigitsOfFormat(d);
    var e := MaskedDigits(d);
    assert FormatPhone(FormatPhone(value)) == FormatDigits(e);
    if |d| >= 2 {
      assert e[1..] == d[1..Min(|d|, 11)];
      FormatSameMaskedPart(d, e);
    }
  }

  /** The mask reads only digits 1 to min(n, 11), and the length bracket. */
  lemma FormatSameMaskedPart(d: string, e: string)
    requires |d| >= 2 && |e| == Min(|d|, 11) && e[1..] == d[1..|e|]
    ensures FormatDigits(e) == FormatDigits(d)
  {
    var m := |e|;
    forall k | 1 <= k < m
      ensures e[k] == d[k]
    {
      assert e[1..][k - 1] == d[1..m][k - 1];
    }
    forall i, j | 1 <= i <= j <= m
      ensures e[i..j] == d[i..j]
    {
      assert forall k | 0 <= k < j - i :: e[i..j][k] == e[i + k] == d[i + k] == d[i..j][k];
    }
    if m > 9 {
      assert e[9..Min(m, 11)] == e[9..m];
    } else {
      assert m == |d| && e[1..] == d[1..];
    }
  }

  /** `validatePhone`: exactly 11 digits after stripping. */
  predicate ValidatePhone(value: string) {
    |Digits(value)| == 11
  }

  /** Any input with at least 11 digits formats to a valid phone. */
  lemma FormatMakesValid(value: string)
    requires |Digits(value)| >= 11
    ensures ValidatePhone(FormatPhone(value))
  {
    DigitsOfFormat(Digits(value));
  }

  /** A formatted phone is valid exactly when its input had at least 11 digits. */
  lemma FormattedValidIff(value: string)
    ensures ValidatePhone(FormatPhone(value)) <==> |Digits(value)| >= 11
  {
    DigitsOfFormat(Digits(value));
  }

  /** An input of 11 or more digits fills the whole mask: its layout, position by position. */
  lemma FullMaskLayout(d: string)
    requires |d| >= 11
    ensures var f := FormatDigits(d);
      |f| == 18 &&
      f[0] == '+' && f[1] == '7' && f[2] == ' ' && f[3] == '(' &&
      f[4] == d[1] && f[5] == d[2] && f[6] == d[3] && f[7] == ')' && f[8] == ' ' &&
      f[9] == d[4] && f[10] == d[5] && f[11] == d[6] && f[12] == '-' &&
      f[13] == d[7] && f[14] == d[8] && f[15] == '-' && f[16] == d[9] && f[17] == d[10]
  {
    assert Min(|d|, 11) == 11;
    var f := FormatDigits(d);
    assert f == "+7 (" + d[1..4] + ") " + d[4..7] + "-" + d[7..9] + "-" + d[9..11];
    assert |f| == 18;
  }

  /** The worked example of the mask. */
  lemma FormatExample(d: string)
    requires d == "79991234567"
    ensures FormatPhone(d) == "+7 (999) 123-45-67"
  {
    assert Digits(d) == d by {
      assert AllDigits(d);
      DigitsOfDigits(d);
    }
    var want := "+7 (999) 123-45-67";
    assert FormatDigits(d) == want by {
      FullMaskLayout(d);
      assert forall i | 0 <= i < 18 :: FormatDigits(d)[i] == want[i];
    }
  }

  /** The example's formatted phone passes the check. */
  lemma FormatExampleValid(d: string)
    requires d == "79991234567"
    ensures ValidatePhone(FormatPhone(d))
  {
    assert AllDigits(d);
    DigitsOfDigits(d);
    FormatMakesValid(d);
  }

  /** `isFormValid`: the submit button's enabling condition. */
  predicate IsFormValid(phone: string, termsAccepted: bool)
    // A valid phone is never empty, so the gate reduces to validity and consent.
    ensures IsFormValid(phone, termsAccepted) <==> ValidatePhone(phone) && termsAccepted
  {
    phone != "" && ValidatePhone(phone) && termsAccepted
  }

  /** The partial `onSubmit` writes: the phone form's two fields. */
  function PhoneUpdate(phone: string, termsAccepted: bool): (p: Partial)
    ensures forall k :: Lookup(p, k).Some? <==> k == PhoneKey || k == TermsAcceptedKey
    ensures p.phone == Some(phone) && p.termsAccepted == Some(termsAccepted)
  {
    NoKeys.(phone := Some(phone), termsAccepted := Some(termsAccepted))
  }

  /**
   * Submitting the phone form. The form library runs `onSubmit` only when the
   * `required` and `validate` rules pass, which is `IsFormValid`; `onSubmit`
   * writes the two fields and (after a delay, here immediately) advances.
   */
  method Submit(store: Store, phone: string, termsAccepted: bool) returns (submitted: bool)
    requires store.Valid() && !store.editing && store.step == PHONE
    modifies store
    ensures store.Valid() && DefaultObjectOnlyAtPhone(store.dataIsDefaultObject, store.step)
    ensures submitted ==> !store.dataIsDefaultObject
    ensures !submitted ==> store.dataIsDefaultObject == old(store.dataIsDefaultObject)
    ensures submitted == IsFormValid(phone, termsAccepted)
    ensures submitted ==> store.data == old(store.data).(phone := phone, termsAccepted := termsAccepted)
                          && store.step == ROLE && store.storage == Some(store.data)
    ensures !submitted ==> store.data == old(store.data) && store.step == old(store.step)
                           && store.storage == old(store.storage)
    ensures store.editing == old(store.editing)
  {
    submitted := IsFormValid(phone, termsAccepted);
    if submitted {
      store.UpdateData(PhoneUpdate(phone, termsAccepted));
      store.NextStep();
    }
  }

  /**
   * After the phone step, a reload resumes at PROFILE rather than ROLE: the
   * written blob always holds `role`.
   */
  lemma ReloadAfterPhoneSubmitSkipsToProfile(before: Record, phone: string)
    requires !before.isRegistered && phone != ""
    requires before.lastName == "" || before.firstName == "" || before.email == ""
             || before.password == "" || before.identificationNumber == ""
    ensures DeriveInitialStep(Reload(Some(before.(phone := phone, termsAccepted := true)))) == PROFILE
  {
    StoreWrittenBlobResume(before.(phone := phone, termsAccepted := true));
  }
}
