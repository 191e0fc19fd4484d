# Registration wizard: a Dafny model of its state machine

The application is a client-side, five-step registration wizard: phone
entry, role choice, one-time code, profile form, and the profile screen
shown once registration is complete. The record being filled in and the
current step are kept in one store (the registration context). Every
change to the record is mirrored into a single blob in browser storage.
When the page loads, the resume step is worked out from that blob.

This project models:

- the store, as the class `RegistrationContext.Store`. It has the three
  state cells `data`, `step` and `editing`, and the persisted blob as
  `storage: Option<Record>`;
- the pure rules the store and screens use:
  - shallow merge;
  - the two start-up initialisers;
  - the step moves;
  - the phone mask;
  - the validators;
  - the OTP buffer edits;
  - the page's screen dispatch;
  - the step indicator;
- the fixed sequence of store calls each screen's handlers make.

Modules follow the source files:

| module | file |
|---|---|
| `Types` | `src/types/index.ts` |
| `RegistrationContext` | `src/context/RegistrationContext.tsx` |
| `PhoneStep` | `src/components/steps/PhoneStep.tsx` |
| `RoleStep` | `src/components/steps/RoleStep.tsx` |
| `OtpStep` | `src/components/steps/OTPStep.tsx` |
| `ProfileStep` | `src/components/steps/ProfileStep.tsx` |
| `ProfileScreen` | `src/components/steps/ProfileScreen.tsx` |
| `RegistrationPage` | `src/pages/RegistrationPage.tsx` |
| `StepIndicator` | `src/components/steps/StepIndicator.tsx` |

`Wrappers` (Option, Result) and `Text` are shared helpers. `Text` holds the
JavaScript regex classes `\d`, `\D` and `\s`, and ASCII upper-casing.

A screen handler is a method that takes the store. Its `requires` says the
handler's screen is the one rendered: a handler exists only while its
screen is mounted. The screens together keep two invariants that the store
alone does not:
- `EditingOnlyAtProfile`: edit mode implies step PROFILE.
- `DefaultObjectOnlyAtPhone`: `data` is the `defaultData` object only at
  PHONE, since every way past the phone screen writes data first.

Behaviours of the code that the model keeps as written:

- **The resume step reads the raw blob, not the merged record.** Every
  blob the store writes holds `role`, because the default is `customer`.
  So for such a blob, a non-empty phone resumes at PROFILE, and the ROLE
  rule fires only for a blob without `role`. This is
  `StoreWrittenBlobResume` and `RoleResumeNeedsMissingRole`.
- **A reload right after the phone step skips ROLE and OTP.** It resumes
  at PROFILE (`ReloadAfterPhoneSubmitSkipsToProfile`).
- **After a logout, storage holds the defaults.** `reset` removes the blob.
  Then the mirroring effect writes the defaults back, because React compares
  state by identity and `data` changes to the `defaultData` object. The
  store tracks that identity in `dataIsDefaultObject`. A bare `reset` while
  `data` already is that object leaves storage empty (`Store.Reset`). The
  only caller, the logout dialog at COMPLETE, never meets that case
  (`LogoutDialog.Confirm`). Either way, a reload starts at PHONE
  (`ReloadAfterReset`).
- **The store persists in an effect.** Persistence happens after the
  render, through the effect on `data`, not inside `updateData`. The effect
  also runs once at mount, so storage holds the record right after
  start-up.
- **The code step is never resumed.** No rule of the step initialiser
  yields OTP (`DeriveInitialStep`). A reload on the code screen resumes
  at PROFILE, past the code check, since the blob then holds the phone and
  the role.
- **The email rule is only a regex shape check.** Dots may appear anywhere
  in the three runs. So `validateEmail` accepts `a@b.c.`.
- **"Letter" in the password rule means an ASCII letter.** Cyrillic
  letters do not count.

## Model

| member | source | states |
|---|---|---|
| `Types.RoleName` | src/types/index.ts:1 | a role is exactly `'customer'` or `'carrier'`; the name identifies the role |
| `Text.Digits` | src/components/steps/PhoneStep.tsx:33 | stripping non-digits yields only digits and never lengthens the input; with `DigitsAppend`, `DigitsOfDigits` and `DigitsOfNonDigits` this pins down the result: every digit kept, in order, every other character dropped |
| `Text.DigitsAppend` | src/components/steps/PhoneStep.tsx:33 | stripping commutes with concatenation |
| `Text.DigitsOfDigits` | src/components/steps/PhoneStep.tsx:33 | a string of digits strips to itself: every digit is kept, in order |
| `Text.DigitsOfNonDigits` | src/components/steps/PhoneStep.tsx:33 | a string without digits strips to the empty string: every non-digit is dropped |
| `Text.DigitsIdempotent` | src/components/steps/PhoneStep.tsx:49 | stripping twice is stripping once |
| `Text.AsciiUpper` | src/components/steps/ProfileScreen.tsx:32 | `toUpperCase` on ASCII letters only: `a`-`z` map to `A`-`Z`; every other character, non-ASCII letters included, is kept as is |
| `Text.UpperAscii` | src/components/steps/ProfileScreen.tsx:32 | upper-casing, ASCII letters only: the length is kept and each character is mapped by `AsciiUpper` |
| `RegistrationContext.Merge` | src/context/RegistrationContext.tsx:78-80 | the spread `{ ...r, ...p }`: each key present in `p` takes `p`'s value and every other key keeps `r`'s |
| `RegistrationContext.MergeAssociative` | src/context/RegistrationContext.tsx:78-80 | two updates in a row equal one update with the two partials spread together |
| `RegistrationContext.MergeDisjointCommutes` | src/context/RegistrationContext.tsx:78-80 | updates with disjoint keys commute |
| `RegistrationContext.MergeIdempotent` | src/context/RegistrationContext.tsx:78-80 | repeating an update changes nothing |
| `RegistrationContext.Persisted` | src/context/RegistrationContext.tsx:74-76 | the written blob holds every key of the record with its value |
| `RegistrationContext.Reload` | src/context/RegistrationContext.tsx:35-45 | a reload reads a blob exactly when one is stored, and the blob holds every key of the stored record with its value |
| `RegistrationContext.InitialData` | src/context/RegistrationContext.tsx:35-45 | the data initialiser: a key present in the blob takes the blob's value; a key missing from the blob, or every key when there is no blob, takes the default |
| `RegistrationContext.DeriveInitialStep` | src/context/RegistrationContext.tsx:47-70 | the step initialiser, first matching rule wins: never OTP; PHONE without a blob; COMPLETE exactly when the blob says registered or holds the five required profile fields; otherwise PROFILE exactly when it holds a phone and a role; otherwise ROLE exactly when it holds a phone and accepted terms; PHONE in every other case |
| `RegistrationContext.PersistRoundTrip` | src/context/RegistrationContext.tsx:35-45 | a blob holding every declared key, merged over the defaults, reproduces exactly its record |
| `RegistrationContext.MissingBlobGivesDefaults` | src/context/RegistrationContext.tsx:35-70 | a missing or unparseable blob yields the default record and PHONE |
| `RegistrationContext.DeriveMonotone` | src/context/RegistrationContext.tsx:47-70 | making more keys of the blob truthy never lowers the resume step |
| `RegistrationContext.StoreWrittenBlobResume` | src/context/RegistrationContext.tsx:51-64 | for a blob this store wrote, registered or complete profile gives COMPLETE, else a non-empty phone gives PROFILE, else PHONE; never ROLE |
| `RegistrationContext.RoleResumeNeedsMissingRole` | src/context/RegistrationContext.tsx:59-64 | ROLE is resumed only from a blob lacking `role`, with a phone, accepted terms and not registered |
| `RegistrationContext.Next` | src/context/RegistrationContext.tsx:86-90 | `nextStep` adds exactly one below COMPLETE and is a no-op at COMPLETE |
| `RegistrationContext.Prev` | src/context/RegistrationContext.tsx:92-96 | `prevStep` subtracts exactly one above PHONE and is a no-op at PHONE |
| `RegistrationContext.NextTimesClamps` | src/context/RegistrationContext.tsx:86-90 | n forward moves reach min(step + n, COMPLETE), so repeated moves at COMPLETE stay there |
| `RegistrationContext.PrevTimesClamps` | src/context/RegistrationContext.tsx:92-96 | n backward moves reach max(step - n, PHONE), so repeated moves at PHONE stay there |
| `RegistrationContext.PrevUndoesNext` | src/context/RegistrationContext.tsx:86-96 | away from the ends a move back undoes a move forward and vice versa |
| `RegistrationContext.Store.Load` | src/context/RegistrationContext.tsx:35-76 | start-up: data is the blob merged over the defaults, the step is the resume step, not editing, and the mount effect stores the data |
| `RegistrationContext.Store.UpdateData` | src/context/RegistrationContext.tsx:78-80 | the record becomes the merge, storage holds the new record, step and flag unchanged; `data` is no longer the `defaultData` object |
| `RegistrationContext.Store.SetStep` | src/context/RegistrationContext.tsx:82-84 | the step is set unconditionally, nothing else changes |
| `RegistrationContext.Store.NextStep` | src/context/RegistrationContext.tsx:86-90 | the step becomes `Next` of the old step, nothing else changes |
| `RegistrationContext.Store.PrevStep` | src/context/RegistrationContext.tsx:92-96 | the step becomes `Prev` of the old step, nothing else changes |
| `RegistrationContext.Store.Reset` | src/context/RegistrationContext.tsx:98-103 | defaults, PHONE, not editing; storage absent, or the defaults when the effect rewrote them; `data` is the `defaultData` object again |
| `RegistrationContext.Store.SetIsEditing` | src/context/RegistrationContext.tsx:72 | only the editing flag changes |
| `RegistrationContext.ReloadRestoresData` | src/context/RegistrationContext.tsx:35-45 | what storage holds reloads to exactly the store's data |
| `RegistrationContext.ReloadAfterReset` | src/context/RegistrationContext.tsx:98-103 | after `reset` a fresh start derives PHONE and the defaults, whatever was stored before |
| `RegistrationContext.UseRegistration` | src/context/RegistrationContext.tsx:124-130 | reading the store outside its provider is an error, inside it yields that provider's store |
| `PhoneStep.DigitsOfFormat` | src/components/steps/PhoneStep.tsx:32-41 | the mask's only digit beyond the input's is the `7` of `+7`: 1 digit keeps it, more keep digits 1 to min(n, 11) |
| `PhoneStep.FormatDigits` | src/components/steps/PhoneStep.tsx:34-40 | the mask's branches on the digit count: at most 18 characters, the length of `+7 (XXX) XXX-XX-XX`, and empty exactly for no digits; `DigitsOfFormat` gives its digit content, `FullMaskLayout` its full layout |
| `PhoneStep.FormatPhone` | src/components/steps/PhoneStep.tsx:32-41 | `formatPhone`: at most 18 characters, and empty exactly when the input has no digit |
| `PhoneStep.ValidatePhone` | src/components/steps/PhoneStep.tsx:48-54 | exactly 11 digits once non-digits are stripped; `FormattedValidIff` and `FormatMakesValid` relate it to the mask |
| `PhoneStep.FormatIgnoresNonDigits` | src/components/steps/PhoneStep.tsx:33 | inputs with the same digits format the same |
| `PhoneStep.FormatNoDigits` | src/components/steps/PhoneStep.tsx:35 | an input without digits formats to the empty string |
| `PhoneStep.FormatKeepsDigits` | src/components/steps/PhoneStep.tsx:37-40 | for 2 or more digits the output's digits are `7` then input digits 1 to min(n, 11) |
| `PhoneStep.FullMaskLayout` | src/components/steps/PhoneStep.tsx:40 | 11 or more digits fill the whole `+7 (XXX) XXX-XX-XX` mask, position by position |
| `PhoneStep.FormatIdempotent` | src/components/steps/PhoneStep.tsx:32-41 | formatting a formatted phone returns it unchanged |
| `PhoneStep.FormatExample` | src/components/steps/PhoneStep.tsx:32-41 | `79991234567` formats to `+7 (999) 123-45-67` |
| `PhoneStep.FormatExampleValid` | src/components/steps/PhoneStep.tsx:48-54 | the example's formatted phone is valid |
| `PhoneStep.FormatMakesValid` | src/components/steps/PhoneStep.tsx:48-54 | any input with at least 11 digits formats to a valid phone |
| `PhoneStep.FormattedValidIff` | src/components/steps/PhoneStep.tsx:44-54 | a formatted phone is valid exactly when its input had at least 11 digits |
| `PhoneStep.IsFormValid` | src/components/steps/PhoneStep.tsx:64 | the form is submittable iff the phone is valid and the terms are accepted (a valid phone is never empty) |
| `PhoneStep.PhoneUpdate` | src/components/steps/PhoneStep.tsx:56-57 | the submitted partial holds exactly the keys `phone` and `termsAccepted`, with the entered phone and consent as values |
| `PhoneStep.Submit` | src/components/steps/PhoneStep.tsx:56-62 | a valid form writes only phone and terms, stores them and advances to ROLE; an invalid one changes nothing; a submit leaves `data` no longer the `defaultData` object; keeps the screens' invariants |
| `PhoneStep.ReloadAfterPhoneSubmitSkipsToProfile` | src/context/RegistrationContext.tsx:59-61 | a reload after the phone step resumes at PROFILE, not ROLE |
| `RoleStep.RoleUpdate` | src/components/steps/RoleStep.tsx:12-14 | selecting a role writes the `role` key and no other |
| `RoleStep.SelectTwiceSameAsOnce` | src/components/steps/RoleStep.tsx:12-14 | selecting the same role twice leaves the record as one selection did, which changes only the role |
| `RoleStep.ContinueAlwaysEnabled` | src/components/steps/RoleStep.tsx:156 | the role is never falsy, so continue is never disabled |
| `RoleStep.SelectRole` | src/components/steps/RoleStep.tsx:12-14 | only the role changes; the step does not; `data` is no longer the `defaultData` object; keeps the screens' invariants |
| `RoleStep.Continue` | src/components/steps/RoleStep.tsx:16-18 | advances exactly one step, to OTP, and writes no data; the identity flag is unchanged and the screens' invariants are kept |
| `RoleStep.Back` | src/components/steps/RoleStep.tsx:153 | retreats exactly one step, to PHONE; the identity flag is unchanged and the screens' invariants are kept |
| `OtpStep.EmptySlots` | src/components/steps/OTPStep.tsx:13 | the buffer starts with six empty slots |
| `OtpStep.Chars` | src/components/steps/OTPStep.tsx:42 | `split('')` gives one single-character string per character |
| `OtpStep.Overwrite` | src/components/steps/OTPStep.tsx:41-52 | writing items from a slot on sets exactly those slots and keeps the length and every other slot |
| `OtpStep.OverwriteDigitsWellFormed` | src/components/steps/OTPStep.tsx:43-47 | writing digits keeps every slot empty or one digit |
| `OtpStep.PasteDigits` | src/components/steps/OTPStep.tsx:87 | the pasted text's first min(n, 6) digits |
| `OtpStep.Changed` | src/components/steps/OTPStep.tsx:35-62 | the buffer after `handleChange`: still six slots, and the slots before `index` never change |
| `OtpStep.Backspaced` | src/components/steps/OTPStep.tsx:65-77 | the buffer after Backspace: six slots, slot `index` is empty afterwards, and only slots `index` and `index - 1` can change |
| `OtpStep.Pasted` | src/components/steps/OTPStep.tsx:85-96 | the buffer after a paste: six slots, and a paste holding six or more digits completes the code |
| `OtpStep.ChangedKeepsWellFormed` | src/components/steps/OTPStep.tsx:35-62 | after a change the buffer still has six slots, each empty or one digit |
| `OtpStep.ChangedIgnoresNonDigits` | src/components/steps/OTPStep.tsx:36 | a value with a non-digit leaves the buffer unchanged |
| `OtpStep.ChangedSingle` | src/components/steps/OTPStep.tsx:54-56 | an empty or one-digit value sets slot `index` only |
| `OtpStep.ChangedSpread` | src/components/steps/OTPStep.tsx:41-52 | a longer value writes its first `6 - index` digits from slot `index` on, nothing else |
| `OtpStep.BackspacedKeepsWellFormed` | src/components/steps/OTPStep.tsx:64-77 | Backspace keeps the buffer well formed |
| `OtpStep.BackspacedClearsOne` | src/components/steps/OTPStep.tsx:65-77 | Backspace empties slot `index - 1` if slot `index` is empty and not the first, else slot `index`; no other slot changes |
| `OtpStep.PastedKeepsWellFormed` | src/components/steps/OTPStep.tsx:85-96 | paste keeps the buffer well formed |
| `OtpStep.PastedContents` | src/components/steps/OTPStep.tsx:85-96 | paste writes the first k digits into slots 0..k-1 and keeps the rest; no digits, no change |
| `OtpStep.WriteSlots` | src/components/steps/OTPStep.tsx:43-47 | the slot-by-slot copy loop yields exactly `Overwrite` of the old buffer |
| `OtpStep.Join` | src/components/steps/OTPStep.tsx:111 | `otp.join('')` of well-formed slots is all digits and no longer than the slot count; `JoinLength` gives its exact length |
| `OtpStep.IsComplete` | src/components/steps/OTPStep.tsx:120 | every slot is non-empty; `CodeLengthIffComplete` shows this is the handler's own test, a six-character code |
| `OtpStep.JoinLength` | src/components/steps/OTPStep.tsx:111 | the joined code has one character per filled slot |
| `OtpStep.FilledCountFull` | src/components/steps/OTPStep.tsx:120 | all slots are filled exactly when the filled count is the slot count |
| `OtpStep.CodeLengthIffComplete` | src/components/steps/OTPStep.tsx:110-120 | the joined code has length 6 exactly when every slot is filled |
| `OtpStep.OtpForm.constructor` | src/components/steps/OTPStep.tsx:13-16 | six empty slots, no error, resend not yet allowed |
| `OtpStep.OtpForm.HandleChange` | src/components/steps/OTPStep.tsx:35-62 | the buffer becomes `Changed` and stays well formed; the error is cleared only by a value of length at most 1 |
| `OtpStep.OtpForm.HandleKeyDown` | src/components/steps/OTPStep.tsx:64-83 | Backspace applies `Backspaced`; other keys change nothing |
| `OtpStep.OtpForm.HandlePaste` | src/components/steps/OTPStep.tsx:85-96 | the buffer becomes `Pasted` of the old buffer and stays well formed |
| `OtpStep.OtpForm.CountdownElapsed` | src/components/steps/OTPStep.tsx:24-33 | when the countdown ends, resend becomes allowed |
| `OtpStep.OtpForm.HandleResend` | src/components/steps/OTPStep.tsx:98-108 | a no-op unless allowed; when allowed, six empty slots, no error, countdown restarted |
| `OtpStep.OtpForm.HandleSubmit` | src/components/steps/OTPStep.tsx:110-118 | a full buffer advances to PROFILE; otherwise the error is set and the step stays; the identity flag is unchanged and the screens' invariants are kept |
| `OtpStep.OtpForm.Back` | src/components/steps/OTPStep.tsx:208 | retreats exactly one step, to ROLE; the identity flag is unchanged and the screens' invariants are kept |
| `ProfileStep.EmailFromParts` | src/components/steps/ProfileStep.tsx:38-44 | any run, `@`, run, `.`, run (runs without whitespace or `@`) is accepted |
| `ProfileStep.EmailSplit` | src/components/steps/ProfileStep.tsx:39 | an accepted address splits as run, `@`, run, `.`, run |
| `ProfileStep.EmailSingleAt` | src/components/steps/ProfileStep.tsx:39 | an accepted address holds exactly one `@` |
| `ProfileStep.EmailNoWhitespace` | src/components/steps/ProfileStep.tsx:39 | an accepted address holds no whitespace and neither starts nor ends with `@` |
| `ProfileStep.ValidateEmail` | src/components/steps/ProfileStep.tsx:38-44 | the regex as a predicate: some `@` and later `.` split the string into three runs free of whitespace and `@`; `EmailFromParts` and `EmailSplit` give both directions |
| `ProfileStep.CountAppend` | src/components/steps/ProfileStep.tsx:39 | character counts add up over concatenation |
| `ProfileStep.PasswordExamples` | src/components/steps/ProfileStep.tsx:46-54 | `abc123` is rejected, `abcd1234` accepted |
| `ProfileStep.PasswordNeedsBothKinds` | src/components/steps/ProfileStep.tsx:48-50 | letters only or digits only are rejected at any length |
| `ProfileStep.PasswordExtends` | src/components/steps/ProfileStep.tsx:46-54 | adding characters to a valid password keeps it valid |
| `ProfileStep.ValidatePassword` | src/components/steps/ProfileStep.tsx:46-54 | at least 8 characters, an ASCII letter and a digit; see `PasswordExamples`, `PasswordNeedsBothKinds`, `PasswordExtends` |
| `ProfileStep.ValidateIdentificationNumber` | src/components/steps/ProfileStep.tsx:56-62 | exactly 12 digits once non-digits are stripped; see `IdentificationIgnoresSeparators`, `TwelveDigitsValid` |
| `ProfileStep.IdentificationIgnoresSeparators` | src/components/steps/ProfileStep.tsx:56-62 | non-digit separators never change the verdict on an identification number |
| `ProfileStep.TwelveDigitsValid` | src/components/steps/ProfileStep.tsx:56-62 | any 12 digits are accepted: no checksum |
| `ProfileStep.MiddleNameOptional` | src/components/steps/ProfileStep.tsx:150 | the middle name never decides validity |
| `ProfileStep.ValidFormFilled` | src/components/steps/ProfileStep.tsx:117-201 | a valid form has last name, first name, email, password and identification number non-empty |
| `ProfileStep.FormValid` | src/components/steps/ProfileStep.tsx:117-201 | the field rules together: five required fields, email, password and identification-number validators, middle name free; see `MiddleNameOptional`, `ValidFormFilled` |
| `ProfileStep.ProfileUpdate` | src/components/steps/ProfileStep.tsx:65 | the submitted partial holds the six form keys with the form's values and `isRegistered` as true, and no phone, terms or role |
| `ProfileStep.SubmitThenReopen` | src/components/steps/ProfileStep.tsx:19-26 | the form reopened after a submit shows what was submitted; registered, with phone, terms and role kept |
| `ProfileStep.SubmitThenReloadComplete` | src/context/RegistrationContext.tsx:52-54 | after the profile submit a reload resumes at COMPLETE |
| `ProfileStep.Submit` | src/components/steps/ProfileStep.tsx:64-68 | a valid form merges the fields with `isRegistered`, leaves edit mode and advances from PROFILE to COMPLETE; an invalid one changes nothing; a submit leaves `data` no longer the `defaultData` object; keeps the screens' invariants |
| `ProfileStep.Back` | src/components/steps/ProfileStep.tsx:70-77 | editing: leave edit mode and advance to COMPLETE; otherwise retreat to OTP; data untouched; the identity flag is unchanged and the screens' invariants are kept |
| `ProfileScreen.NonEmpty` | src/components/steps/ProfileScreen.tsx:30 | `filter(Boolean)`: every part kept is non-empty and from the input, and every non-empty part is kept; `NonEmptyOfThree` gives the order for the three names |
| `ProfileScreen.NonEmptyOfThree` | src/components/steps/ProfileScreen.tsx:30 | for last, first and middle name: exactly the non-empty ones, in that order |
| `ProfileScreen.SplitJoin` | src/components/steps/ProfileScreen.tsx:30 | splitting a join on its separator gives back the parts when none contains it |
| `ProfileScreen.FullNameEmptyIff` | src/components/steps/ProfileScreen.tsx:30 | the full name is empty exactly when all three names are |
| `ProfileScreen.FullNameSplits` | src/components/steps/ProfileScreen.tsx:30 | when no name contains a space and not all three are empty, splitting the full name on spaces gives back the non-empty names in order: last, first, middle |
| `ProfileScreen.FullName` | src/components/steps/ProfileScreen.tsx:30 | the non-empty names joined by single spaces; see `FullNameEmptyIff`, `FullNameSplits` |
| `ProfileScreen.InitialsShape` | src/components/steps/ProfileScreen.tsx:32 | first name's initial then last name's, each upper-cased by the ASCII-only `AsciiUpper`; an empty name contributes nothing, so at most two characters |
| `ProfileScreen.Initials` | src/components/steps/ProfileScreen.tsx:32 | first characters of first and last name, upper-cased (ASCII only); see `InitialsShape` |
| `ProfileScreen.RoleLabelOf` | src/components/steps/ProfileScreen.tsx:31 | the customer label iff the role is `'customer'`, else the carrier label |
| `ProfileScreen.HandleEdit` | src/components/steps/ProfileScreen.tsx:16-19 | edit mode on and the step set to PROFILE, data untouched; the identity flag is unchanged and the screens' invariants are kept |
| `ProfileScreen.LogoutDialog.constructor` | src/components/steps/ProfileScreen.tsx:13 | the logout dialog starts closed |
| `ProfileScreen.LogoutDialog.Open` | src/components/steps/ProfileScreen.tsx:282 | the logout button only opens the dialog |
| `ProfileScreen.LogoutDialog.Dismiss` | src/components/steps/ProfileScreen.tsx:304-328 | cancel or a backdrop click closes the dialog with no store change |
| `ProfileScreen.LogoutDialog.Confirm` | src/components/steps/ProfileScreen.tsx:21-23 | the confirm button resets the store: defaults, PHONE, not editing, and `data` is the `defaultData` object again; at COMPLETE `data` never was that object, so storage always ends up holding the defaults, and a reload starts at PHONE |
| `RegistrationPage.EditingShowsForm` | src/pages/RegistrationPage.tsx:17-19 | while editing the profile form is shown, whatever the step |
| `RegistrationPage.RenderMatchesStep` | src/pages/RegistrationPage.tsx:21-31 | out of edit mode, steps 0 to 4 show Phone, Role, OTP, profile form and profile screen |
| `RegistrationPage.RenderFallback` | src/pages/RegistrationPage.tsx:32-33 | any other value shows the phone screen |
| `RegistrationPage.RenderUnderInvariant` | src/pages/RegistrationPage.tsx:15-35 | under the screens' edit invariant the screen shown is always the current step's own |
| `RegistrationPage.RenderStep` | src/pages/RegistrationPage.tsx:15-35 | `renderStep`; see `EditingShowsForm`, `RenderMatchesStep`, `RenderFallback`, `RenderUnderInvariant` |
| `RegistrationPage.IndicatorShown` | src/pages/RegistrationPage.tsx:39 | the step indicator is rendered exactly when not editing |
| `RegistrationPage.RegisterFromScratch` | src/pages/RegistrationPage.tsx:15-35 | the five screens driven in order end at COMPLETE with the entered data, and a reload resumes there |
| `RegistrationPage.EditAndSave` | src/components/steps/ProfileScreen.tsx:16-19 | edit then save returns to COMPLETE, out of edit mode, with the new profile |
| `RegistrationPage.EditAndCancel` | src/components/steps/ProfileStep.tsx:70-77 | edit then back returns to COMPLETE with nothing written |
| `StepIndicator.HiddenIffComplete` | src/components/steps/StepIndicator.tsx:22-24 | nothing is rendered exactly at COMPLETE |
| `StepIndicator.EntriesClassified` | src/components/steps/StepIndicator.tsx:14-65 | PHONE, ROLE, OTP, PROFILE in order; completed iff below the current step, current iff equal, never both; a non-completed entry shows its 1-based position |
| `StepIndicator.ExactlyOneCurrent` | src/components/steps/StepIndicator.tsx:39-40 | below COMPLETE exactly one entry is current |
| `StepIndicator.Indicator` | src/components/steps/StepIndicator.tsx:14-65 | the entries rendered, or nothing; see `HiddenIffComplete`, `EntriesClassified`, `ExactlyOneCurrent` |

## Left out

- JSON encoding and decoding are not modelled. The blob is read back as a `Partial`, a record whose keys may be absent. A missing, empty or unparseable blob is `None`. A blob that parses to `null` also behaves as `None`: the merge gives the defaults, and the step lookup throws and falls back to PHONE. Blobs whose values have the wrong JSON type (a numeric phone, an unknown role) are not modelled.
- Storage writes always succeed; quota errors and `console.error` logging are not modelled.
- React scheduling is modelled sequentially. `nextStep`/`prevStep` test the rendered `currentStep` but update through `prev`; here both are one value. Batching of several updates in one event is not modelled. The mirroring effect is applied at the end of each store operation that changes `data`.
- PhoneStep.Submit: the 500 ms delay before `nextStep` is an immediate call.
- OtpStep.OtpForm.CountdownElapsed: the 60-second countdown is reduced to the `canResend` flag; the remaining seconds shown on screen are not modelled.
- Input focus (`inputRefs`, `setFocus`, the arrow keys' focus moves, auto-advance) is not modelled; `HandleKeyDown` treats the arrows as no change to the buffer.
- OtpStep.WriteSlots: the `index + i < OTP_LENGTH` test inside the change handler's loop always holds after the `slice`, so the loop writes without it.
- react-hook-form is reduced to its outcome: `onSubmit` runs when every field rule passes (`IsFormValid`, `FormValid`). Error messages, `mode: 'onChange'` and the first-error focus effect are left out.
- ProfileStep.Submit: the browser's own check of the `type="email"` input (src/components/steps/ProfileStep.tsx:165) runs before the form's submit handler and is not modelled. The model therefore submits some addresses that `validateEmail` accepts but the page refuses, such as `a@b.c.` or `a@b..c`.
- Translated texts (error messages, the role and identification labels) are abstract values (`OtpError`, `RoleLabel`); the role-dependent identification label at src/components/steps/ProfileStep.tsx:80-81 is presentation only and not modelled.
- Text.AsciiUpper: maps ASCII letters only, where `toUpperCase` maps every cased letter (`'а'` becomes `'А'`), so its contract is weaker than the source's.
- Text.UpperAscii: inherits the ASCII-only mapping of `AsciiUpper`.
- ProfileScreen.InitialsShape: "upper-cased, at most two characters" holds for the ASCII-only mapping. With `toUpperCase`, `'ß'` becomes `"SS"` and `'а'` becomes `'А'`, which this lemma does not cover.
- ProfileScreen.Initials: upper-casing covers ASCII letters only. Cyrillic and other case mappings, including ones that change the length, are not modelled, so the contract is weaker than `toUpperCase`.
- Strings are sequences of Unicode characters. JavaScript strings are UTF-16 code units, so for characters outside the Basic Multilingual Plane, lengths and `s[0]` differ from the model.
- The progress bar's width percentage in the step indicator, animations, theme and language switches, the active tab on the profile screen, the layout and UI components, provider wiring in `App.tsx`, and the unused `UserProfile` type are presentation only.
