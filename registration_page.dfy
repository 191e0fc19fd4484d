/** The page: which screen `(isEditing, currentStep)` shows, and whether the step indicator is shown. */
module RegistrationPage {
  import opened Wrappers
  import opened Text
  import opened Types
  import opened RegistrationContext
  import PhoneStep
  import RoleStep
  import OtpStep
  import ProfileStep
  import ProfileScreen

  datatype Screen = PhoneScreen | RoleScreen | OtpScreen | ProfileFormScreen | ProfileViewScreen

  /** `renderStep`: the form when editing, else the step's screen; any other value falls back to the phone screen. */
  function RenderStep(editing: bool, step: int): Screen {
    if editing then ProfileFormScreen
    else if step == PHONE then PhoneScreen
    else if step == ROLE then RoleScreen
    else if step == OTP then OtpScreen
    else if step == PROFILE then ProfileFormScreen
    else if step == COMPLETE then ProfileViewScreen
    else PhoneScreen
  }

  /** `{!isEditing && <StepIndicator .../>}` */
  predicate IndicatorShown(editing: bool) {
    !editing
  }

  /** The step each screen belongs to. */
  function ScreenStep(s: Screen): Step {
    match s
    case PhoneScreen => PHONE
    case RoleScreen => ROLE
    case OtpScreen => OTP
    case ProfileFormScreen => PROFILE
    case ProfileViewScreen => COMPLETE
  }

  /** While editing, the form is shown whatever the step. */
  lemma EditingShowsForm(step: int)
    ensures RenderStep(true, step) == ProfileFormScreen
  {
  }

  /** Out of editing, the five steps show five different screens, each the screen of its step. */
  lemma RenderMatchesStep(step: Step)
    ensures ScreenStep(RenderStep(false, step)) == step
  {
  }

  /** A value outside the five steps shows the phone screen. */
  lemma RenderFallback(step: int)
    requires step < PHONE || step > COMPLETE
    ensures RenderStep(false, step) == PhoneScreen
  {
  }

  /** Under the screens' invariant, the screen shown is always the current step's own screen. */
  lemma RenderUnderInvariant(editing: bool, step: Step)
    requires EditingOnlyAtProfile(editing, step)
    ensures ScreenStep(RenderStep(editing, step)) == step
  {
  }

  // ---------------------------------------------------------------------------
  // The screens' calls composed, as a user drives them through the page
  // ---------------------------------------------------------------------------

  /**
   * A first visit: phone and consent, a role, a pasted six-digit code, the
   * profile form. The wizard ends at COMPLETE holding what was entered, and a
   * reload resumes there.
   */
  method RegisterFromScratch(phone: string, role: Role, code: string, f: ProfileStep.ProfileForm)
    returns (store: Store)
    requires PhoneStep.IsFormValid(phone, true)
    requires AllDigits(code) && |code| == OtpStep.OTP_LENGTH
    requires ProfileStep.FormValid(f)
    ensures store.Valid() && !store.editing && store.step == COMPLETE && DefaultObjectOnlyAtPhone(store.dataIsDefaultObject, store.step)
    ensures RenderStep(store.editing, store.step) == ProfileViewScreen
    ensures store.data.phone == phone && store.data.termsAccepted && store.data.role == role
    ensures ProfileStep.FormOf(store.data) == f && store.data.isRegistered
    ensures DeriveInitialStep(Reload(store.storage)) == COMPLETE
  {
    store := new Store.Load(None);
    var sent := PhoneStep.Submit(store, phone, true);
    RoleStep.SelectRole(store, role);
    RoleStep.Continue(store);
    var otp := new OtpStep.OtpForm();
    otp.HandlePaste(code);
    DigitsOfDigits(code);
    OtpStep.PastedContents(OtpStep.EmptySlots(), code);
    otp.HandleSubmit(store);
    var before := store.data;
    var saved := ProfileStep.Submit(store, f);
    ProfileStep.SubmitThenReopen(before, f);
    ProfileStep.SubmitThenReloadComplete(before, f);
  }

  /** Edit from the profile screen and save: back at COMPLETE, out of edit mode, with the new profile. */
  method EditAndSave(store: Store, f: ProfileStep.ProfileForm)
    requires store.Valid() && !store.editing && store.step == COMPLETE
    requires DefaultObjectOnlyAtPhone(store.dataIsDefaultObject, store.step)
    requires ProfileStep.FormValid(f)
    modifies store
    ensures store.Valid() && !store.editing && store.step == COMPLETE && DefaultObjectOnlyAtPhone(store.dataIsDefaultObject, store.step)
    ensures store.data == Merge(old(store.data), ProfileStep.ProfileUpdate(f))
    ensures ProfileStep.FormOf(store.data) == f
  {
    ProfileScreen.HandleEdit(store);
    assert RenderStep(store.editing, store.step) == ProfileFormScreen;
    var saved := ProfileStep.Submit(store, f);
    ProfileStep.SubmitThenReopen(old(store.data), f);
  }

  /** Edit from the profile screen and go back: COMPLETE again, nothing written. */
  method EditAndCancel(store: Store)
    requires store.Valid() && !store.editing && store.step == COMPLETE
    requires DefaultObjectOnlyAtPhone(store.dataIsDefaultObject, store.step)
    modifies store
    ensures store.Valid() && !store.editing && store.step == COMPLETE && DefaultObjectOnlyAtPhone(store.dataIsDefaultObject, store.step)
    ensures store.data == old(store.data) && store.storage == old(store.storage)
  {
    ProfileScreen.HandleEdit(store);
    ProfileStep.Back(store);
  }
}
