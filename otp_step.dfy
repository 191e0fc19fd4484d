/**
 * The one-time-code screen: a buffer of six slots, each empty or one
 * decimal digit, edited by typing, Backspace and paste; resend and submit.
 */
module OtpStep {
  import opened Text
  import opened Types
  import opened RegistrationContext

  const OTP_LENGTH: nat := 6

  /** A slot holds nothing or one decimal digit. */
  predicate IsSlot(s: string) {
    s == "" || (|s| == 1 && IsDigit(s[0]))
  }

  predicate WellFormed(otp: seq<string>) {
    |otp| == OTP_LENGTH && forall i :: 0 <= i < |otp| ==> IsSlot(otp[i])
  }

  /** `Array(OTP_LENGTH).fill('')` */
  function EmptySlots(): (e: seq<string>)
    ensures WellFormed(e)
    ensures forall i :: 0 <= i < |e| ==> e[i] == ""
  {
    seq(OTP_LENGTH, _ => "")
  }

  /** `s.split('')`: one single-character string per character. */
  function Chars(s: string): (c: seq<string>)
    ensures |c| == |s|
    ensures forall i :: 0 <= i < |s| ==> c[i] == [s[i]]
  {
    seq(|s|, i requires 0 <= i < |s| => [s[i]])
  }

  /** `slots` with `items` written over the slots from `start` on. */
  function Overwrite(slots: seq<string>, start: nat, items: seq<string>): (r: seq<string>)
    requires start + |items| <= |slots|
    ensures |r| == |slots|
    ensures forall i :: start <= i < start + |items| ==> r[i] == items[i - start]
    ensures forall i :: 0 <= i < |slots| && !(start <= i < start + |items|) ==> r[i] == slots[i]
  {
    slots[..start] + items + slots[start + |items|..]
  }

  /** Writing one more item is one more slot assignment. */
  lemma OverwriteExtend(slots: seq<string>, start: nat, items: seq<string>, x: string)
    requires start + |items| + 1 <= |slots|
    ensures Overwrite(slots, start, items + [x]) == Overwrite(slots, start, items)[start + |items| := x]
  {
  }

  /** Writing the digits of an all-digit string keeps every slot well formed. */
  lemma OverwriteDigitsWellFormed(otp: seq<string>, start: nat, s: string)
    requires WellFormed(otp) && AllDigits(s) && start + |s| <= OTP_LENGTH
    ensures WellFormed(Overwrite(otp, start, Chars(s)))
  {
  }

  // ---------------------------------------------------------------------------
  // The handlers' effect on the buffer, as functions
  // ---------------------------------------------------------------------------

  /**
   * `handleChange(index, value)`: a value that is not all digits is ignored; a
   * longer value is spread over the slots from `index`, as many digits as fit;
   * otherwise the value replaces slot `index`.
   */
  function Changed(otp: seq<string>, index: nat, value: string): (r: seq<string>)
    requires |otp| == OTP_LENGTH && index < OTP_LENGTH
    ensures |r| == OTP_LENGTH
    ensures forall j :: 0 <= j < index ==> r[j] == otp[j]
  {
    if !AllDigits(value) then otp
    else if |value| > 1 then Overwrite(otp, index, Chars(value[..Min(|value|, OTP_LENGTH - index)]))
    else otp[index := value]
  }

  /** Backspace: the previous slot when this one is already empty, otherwise this one. */
  function Backspaced(otp: seq<string>, index: nat): (r: seq<string>)
    requires |otp| == OTP_LENGTH && index < OTP_LENGTH
    ensures |r| == OTP_LENGTH
    ensures r[index] == ""
    ensures forall j :: 0 <= j < OTP_LENGTH && j != index && j != index - 1 ==> r[j] == otp[j]
  {
    if otp[index] == "" && index > 0 then otp[index - 1 := ""] else otp[index := ""]
  }

  /** The digits of pasted text, at most six: `replace(/\D/g, '').slice(0, 6)`. */
  function PasteDigits(text: string): (p: string)
    ensures AllDigits(p) && |p| <= OTP_LENGTH
    ensures |p| == Min(|Digits(text)|, OTP_LENGTH)
    ensures p == Digits(text)[..|p|]
  {
    Digits(text)[..Min(|Digits(text)|, OTP_LENGTH)]
  }

  /** `handlePaste`: the pasted digits fill the slots from the first; nothing if there are none. */
  function Pasted(otp: seq<string>, text: string): (r: seq<string>)
    requires |otp| == OTP_LENGTH
    ensures |r| == OTP_LENGTH
    ensures |Digits(text)| >= OTP_LENGTH ==> IsComplete(r)
  {
    var p := PasteDigits(text);
    if p == "" then otp else Overwrite(otp, 0, Chars(p))
  }

  lemma ChangedKeepsWellFormed(otp: seq<string>, index: nat, value: string)
    requires WellFormed(otp) && index < OTP_LENGTH
    ensures WellFormed(Changed(otp, index, value))
  {
    if AllDigits(value) && |value| > 1 {
      OverwriteDigitsWellFormed(otp, index, value[..Min(|value|, OTP_LENGTH - index)]);
    }
  }

  /** A value with a non-digit leaves the buffer unchanged. */
  lemma ChangedIgnoresNonDigits(otp: seq<string>, index: nat, value: string)
    requires |otp| == OTP_LENGTH && index < OTP_LENGTH
    requires exists i :: 0 <= i < |value| && !IsDigit(value[i])
    ensures Changed(otp, index, value) == otp
  {
  }

  /** An empty or one-digit value sets slot `index` only. */
  lemma ChangedSingle(otp: seq<string>, index: nat, value: string)
    requires |otp| == OTP_LENGTH && index < OTP_LENGTH
    requires AllDigits(value) && |value| <= 1
    ensures Changed(otp, index, value)[index] == value
    ensures forall j :: 0 <= j < OTP_LENGTH && j != index ==> Changed(otp, index, value)[j] == otp[j]
  {
  }

  /** A longer all-digit value writes its first `6 - index` digits from slot `index` on, and nothing else. */
  lemma ChangedSpread(otp: seq<string>, index: nat, value: string)
    requires |otp| == OTP_LENGTH && index < OTP_LENGTH
    requires AllDigits(value) && |value| > 1
    ensures var r := Changed(otp, index, value);
      var k := Min(|value|, OTP_LENGTH - index);
      |r| == OTP_LENGTH &&
      (forall j :: 0 <= j < k ==> r[index + j] == [value[j]]) &&
      (forall j :: 0 <= j < OTP_LENGTH && !(index <= j < index + k) ==> r[j] == otp[j])
  {
    var k := Min(|value|, OTP_LENGTH - index);
    var r := Changed(otp, index, value);
    assert r == Overwrite(otp, index, Chars(value[..k]));
    forall j | 0 <= j < k ensures r[index + j] == [value[j]] {
      assert r[index + j] == Chars(value[..k])[j];
    }
  }

  lemma BackspacedKeepsWellFormed(otp: seq<string>, index: nat)
    requires WellFormed(otp) && index < OTP_LENGTH
    ensures WellFormed(Backspaced(otp, index))
  {
  }

  /** Backspace empties exactly one slot: `index - 1` when slot `index` is empty and not the first, else `index`. */
  lemma BackspacedClearsOne(otp: seq<string>, index: nat)
    requires |otp| == OTP_LENGTH && index < OTP_LENGTH
    ensures var cleared := if otp[index] == "" && index > 0 then index - 1 else index;
      var r := Backspaced(otp, index);
      r[cleared] == "" && forall j :: 0 <= j < OTP_LENGTH && j != cleared ==> r[j] == otp[j]
  {
  }

  lemma PastedKeepsWellFormed(otp: seq<string>, text: string)
    requires WellFormed(otp)
    ensures WellFormed(Pasted(otp, text))
  {
    var p := PasteDigits(text);
    if p != "" {
      OverwriteDigitsWellFormed(otp, 0, p);
    }
  }

  /** Paste writes the first `k` pasted digits into slots `0..k-1` and keeps the rest; no digits, no change. */
  lemma PastedContents(otp: seq<string>, text: string)
    requires |otp| == OTP_LENGTH
    ensures var k := Min(|Digits(text)|, OTP_LENGTH);
      var r := Pasted(otp, text);
      (k == 0 ==> r == otp) &&
      (forall j :: 0 <= j < k ==> r[j] == [Digits(text)[j]]) &&
      (forall j :: k <= j < OTP_LENGTH ==> r[j] == otp[j])
  {
    var p := PasteDigits(text);
    var k := |p|;
    if p != "" {
      var r := Pasted(otp, text);
      forall j | 0 <= j < k ensures r[j] == [Digits(text)[j]] {
        assert r[j] == Chars(p)[j];
      }
    }
  }

  // ---------------------------------------------------------------------------
  // Completeness: `otp.join('')` and `isComplete`
  // ---------------------------------------------------------------------------

  function Join(slots: seq<string>): (code: string)
    ensures (forall i :: 0 <= i < |slots| ==> IsSlot(slots[i])) ==> AllDigits(code) && |code| <= |slots|
  {
    if slots == [] then "" else slots[0] + Join(slots[1..])
  }

  /** `otp.every(digit => digit !== '')` */
  predicate IsComplete(otp: seq<string>) {
    forall i :: 0 <= i < |otp| ==> otp[i] != ""
  }

  /** The number of filled slots. */
  function FilledCount(slots: seq<string>): nat {
    if slots == [] then 0 else (if slots[0] != "" then 1 else 0) + FilledCount(slots[1..])
  }

  /** Joining one-character slots gives one character per filled slot. */
  lemma {:induction false} JoinLength(slots: seq<string>)
    requires forall i :: 0 <= i < |slots| ==> IsSlot(slots[i])
    ensures |Join(slots)| == FilledCount(slots)
  {
    if slots != [] {
      JoinLength(slots[1..]);
    }
  }

  /** Every slot is filled exactly when the filled count is the slot count. */
  lemma {:induction false} FilledCountFull(slots: seq<string>)
    ensures FilledCount(slots) <= |slots|
    ensures FilledCount(slots) == |slots| <==> IsComplete(slots)
  {
    if slots != [] {
      FilledCountFull(slots[1..]);
      if IsComplete(slots[1..]) && slots[0] != "" {
        assert IsComplete(slots);
      }
    }
  }

  /** The joined code has length six exactly when every slot is filled. */
  lemma CodeLengthIffComplete(otp: seq<string>)
    requires WellFormed(otp)
    ensures |Join(otp)| == OTP_LENGTH <==> IsComplete(otp)
  {
    JoinLength(otp);
    FilledCountFull(otp);
  }

  /**
   * The `forEach` loop of both handlers: copy the buffer, then write the items
   * slot by slot from `start` on.
   */
  method WriteSlots(otp: seq<string>, start: nat, items: seq<string>) returns (newOtp: seq<string>)
    requires start + |items| <= |otp|
    ensures newOtp == Overwrite(otp, start, items)
  {
    newOtp := otp;
    var i := 0;
    while i < |items|
      invariant 0 <= i <= |items|
      invariant newOtp == Overwrite(otp, start, items[..i])
    {
      OverwriteExtend(otp, start, items[..i], items[i]);
      assert items[..i + 1] == items[..i] + [items[i]];
      newOtp := newOtp[start + i := items[i]];
      i := i + 1;
    }
    assert items[..i] == items;
  }

  // ---------------------------------------------------------------------------
  // The screen's state
  // ---------------------------------------------------------------------------

  datatype OtpError = NoError | CodeRequired

  datatype KeyPress = Backspace | ArrowLeft | ArrowRight | OtherKey

  class OtpForm {
    var otp: seq<string>
    var error: OtpError
    /** Whether the resend countdown has run out. */
    var canResend: bool

    ghost predicate Valid()
      reads this
    {
      WellFormed(otp)
    }

    /** Mounting the screen: six empty slots, no error, countdown running. */
    constructor ()
      ensures Valid() && otp == EmptySlots() && error == NoError && !canResend
    {
      otp := EmptySlots();
      error := NoError;
      canResend := false;
    }

    method HandleChange(index: nat, value: string)
      requires Valid() && index < OTP_LENGTH
      modifies this
      ensures Valid()
      ensures otp == Changed(old(otp), index, value)
      ensures error == if AllDigits(value) && |value| <= 1 then NoError else old(error)
      ensures canResend == old(canResend)
    {
      if !AllDigits(value) {
        return;
      }
      ChangedKeepsWellFormed(otp, index, value);
      if |value| > 1 {
        var digits := Chars(value[..Min(|value|, OTP_LENGTH - index)]);
        otp := WriteSlots(otp, index, digits);
        return;
      }
      otp := otp[index := value];
      error := NoError;
    }

    /** `handleKeyDown`: only Backspace changes the buffer; the arrows move focus. */
    method HandleKeyDown(index: nat, key: KeyPress)
      requires Valid() && index < OTP_LENGTH
      modifies this
      ensures Valid()
      ensures otp == if key == Backspace then Backspaced(old(otp), index) else old(otp)
      ensures error == old(error) && canResend == old(canResend)
    {
      if key == Backspace {
        BackspacedKeepsWellFormed(otp, index);
        if otp[index] == "" && index > 0 {
          otp := otp[index - 1 := ""];
        } else {
          otp := otp[index := ""];
        }
      }
    }

    method HandlePaste(text: string)
      requires Valid()
      modifies this
      ensures Valid()
      ensures otp == Pasted(old(otp), text)
      ensures error == old(error) && canResend == old(canResend)
    {
      var pasteData := PasteDigits(text);
      PastedKeepsWellFormed(otp, text);
      if pasteData != "" {
        otp := WriteSlots(otp, 0, Chars(pasteData));
      }
    }

    /** The countdown reaching zero. */
    method CountdownElapsed()
      requires Valid()
      modifies this`canResend
      ensures Valid() && canResend
    {
      canResend := true;
    }

    /** `handleResend`: when allowed, empty buffer, no error, countdown restarted; otherwise nothing. */
    method HandleResend()
      requires Valid()
      modifies this
      ensures Valid()
      ensures old(canResend) ==> otp == EmptySlots() && error == NoError && !canResend
      ensures !old(canResend) ==> otp == old(otp) && error == old(error) && canResend == old(canResend)
    {
      if canResend {
        canResend := false;
        otp := EmptySlots();
        error := NoError;
      }
    }

    /**
     * `handleSubmit`: any six-digit code is accepted and the wizard moves on;
     * a shorter code sets the error and the step stays.
     */
    method HandleSubmit(store: Store)
      requires Valid() && store.Valid() && !store.editing && store.step == OTP
      requires DefaultObjectOnlyAtPhone(store.dataIsDefaultObject, store.step)
      modifies this`error, store
      ensures Valid() && store.Valid() && DefaultObjectOnlyAtPhone(store.dataIsDefaultObject, store.step)
      ensures IsComplete(otp) ==> store.step == PROFILE && error == old(error)
      ensures !IsComplete(otp) ==> store.step == OTP && error == CodeRequired
      ensures store.data == old(store.data) && store.storage == old(store.storage)
      ensures store.editing == old(store.editing)
      ensures store.dataIsDefaultObject == old(store.dataIsDefaultObject)
    {
      var code := Join(otp);
      CodeLengthIffComplete(otp);
      if |code| != OTP_LENGTH {
        error := CodeRequired;
        return;
      }
      store.NextStep();
    }

    /** The back button. */
    method Back(store: Store)
      requires store.Valid() && !store.editing && store.step == OTP
      requires DefaultObjectOnlyAtPhone(store.dataIsDefaultObject, store.step)
      modifies store
      ensures store.Valid() && store.step == ROLE && DefaultObjectOnlyAtPhone(store.dataIsDefaultObject, store.step)
      ensures store.data == old(store.data) && store.storage == old(store.storage)
      ensures store.editing == old(store.editing)
      ensures store.dataIsDefaultObject == old(store.dataIsDefaultObject)
    {
      store.PrevStep();
    }
  }
}
