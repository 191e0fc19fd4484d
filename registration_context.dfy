/**
 * The registration store: one record, the current wizard step and the
 * editing flag, mirrored into a single persisted blob. The pure half
 * (merging, the step moves, the start-up initialisers) is stated as
 * functions; the `Store` class holds the three state cells and the blob.
 */
module RegistrationContext {
  import opened Wrappers
  import opened Types

  /** `defaultData`. */
  const DefaultData := Record("", false, Customer, "", "", "", "", "", "", false)

  // ---------------------------------------------------------------------------
  // Shallow merge: `{ ...r, ...p }`
  // ---------------------------------------------------------------------------

  /** Every key present in `p` takes `p`'s value; every other key keeps `r`'s. */
  function Merge(r: Record, p: Partial): (m: Record)
    ensures forall k :: Get(m, k) == if Lookup(p, k).Some? then Lookup(p, k).value else Get(r, k)
  {
    Record(
      p.phone.GetOr(r.phone),
      p.termsAccepted.GetOr(r.termsAccepted),
      p.role.GetOr(r.role),
      p.lastName.GetOr(r.lastName),
      p.firstName.GetOr(r.firstName),
      p.middleName.GetOr(r.middleName),
      p.email.GetOr(r.email),
      p.password.GetOr(r.password),
      p.identificationNumber.GetOr(r.identificationNumber),
      p.isRegistered.GetOr(r.isRegistered))
  }

  /** `{ ...p, ...q }` on two partials: `q`'s keys win. */
  function Combine(p: Partial, q: Partial): Partial {
    Partial(
      if q.phone.Some? then q.phone else p.phone,
      if q.termsAccepted.Some? then q.termsAccepted else p.termsAccepted,
      if q.role.Some? then q.role else p.role,
      if q.lastName.Some? then q.lastName else p.lastName,
      if q.firstName.Some? then q.firstName else p.firstName,
      if q.middleName.Some? then q.middleName else p.middleName,
      if q.email.Some? then q.email else p.email,
      if q.password.Some? then q.password else p.password,
      if q.identificationNumber.Some? then q.identificationNumber else p.identificationNumber,
      if q.isRegistered.Some? then q.isRegistered else p.isRegistered)
  }

  predicate Disjoint(p: Partial, q: Partial) {
    forall k :: !(Lookup(p, k).Some? && Lookup(q, k).Some?)
  }

  /** Two updates in a row are one update with the combined partial. */
  lemma MergeAssociative(r: Record, p: Partial, q: Partial)
    ensures Merge(Merge(r, p), q) == Merge(r, Combine(p, q))
  {
  }

  /** Updates with disjoint keys can be applied in either order. */
  lemma MergeDisjointCommutes(r: Record, p: Partial, q: Partial)
    requires Disjoint(p, q)
    ensures Merge(Merge(r, p), q) == Merge(Merge(r, q), p)
  {
    forall k ensures Get(Merge(Merge(r, p), q), k) == Get(Merge(Merge(r, q), p), k) {
      assert Get(Merge(r, p), k) == if Lookup(p, k).Some? then Lookup(p, k).value else Get(r, k);
      assert Get(Merge(r, q), k) == if Lookup(q, k).Some? then Lookup(q, k).value else Get(r, k);
    }
    RecordExtensionality(Merge(Merge(r, p), q), Merge(Merge(r, q), p));
  }

  /** Applying the same update twice is applying it once. */
  lemma MergeIdempotent(r: Record, p: Partial)
    ensures Merge(Merge(r, p), p) == Merge(r, p)
  {
  }

  // ---------------------------------------------------------------------------
  // Persistence: the blob is `JSON.stringify(data)`; reading it back gives a
  // partial with every key present. Decoding is not modelled: a missing,
  // empty or unparseable blob is `None`.
  // ---------------------------------------------------------------------------

  /** The blob the store writes for `r`, as it parses back. */
  function Persisted(r: Record): (p: Partial)
    ensures forall k :: Lookup(p, k) == Some(Get(r, k))
  {
    Partial(Some(r.phone), Some(r.termsAccepted), Some(r.role), Some(r.lastName),
            Some(r.firstName), Some(r.middleName), Some(r.email), Some(r.password),
            Some(r.identificationNumber), Some(r.isRegistered))
  }

  /** What a reload of the page reads from storage. */
  function Reload(storage: Option<Record>): (o: Option<Partial>)
    ensures o.Some? <==> storage.Some?
    ensures storage.Some? ==> forall k :: Lookup(o.value, k) == Some(Get(storage.value, k))
  {
    match storage
    case None => None
    case Some(r) => Some(Persisted(r))
  }

  /** The data initialiser: the blob merged over the defaults, or the defaults. */
  function InitialData(saved: Option<Partial>): (r: Record)
    ensures forall k :: saved.Some? && Lookup(saved.value, k).Some? ==> Get(r, k) == Lookup(saved.value, k).value
    ensures forall k :: saved.None? || Lookup(saved.value, k).None? ==> Get(r, k) == Get(DefaultData, k)
  {
    match saved
    case None => DefaultData
    case Some(blob) => Merge(DefaultData, blob)
  }

  /** A blob holding every declared key reproduces exactly its record. */
  lemma PersistRoundTrip(r: Record)
    ensures InitialData(Reload(Some(r))) == r
  {
  }

  /** JavaScript truthiness of a possibly absent string, boolean or role. */
  predicate Filled(o: Option<string>) { o.Some? && o.value != "" }
  predicate IsTrue(o: Option<bool>) { o == Some(true) }

  /** The five required profile keys are all truthy. */
  predicate ProfileFilled(b: Partial) {
    Filled(b.lastName) && Filled(b.firstName) && Filled(b.email)
    && Filled(b.password) && Filled(b.identificationNumber)
  }

  /**
   * The step initialiser: the resume step, by the first rule that matches
   * the RAW parsed blob (not the merged record).
   */
  function DeriveInitialStep(saved: Option<Partial>): (s: Step)
    ensures s != OTP
    ensures saved.None? ==> s == PHONE
    ensures s == COMPLETE <==> saved.Some? && (IsTrue(saved.value.isRegistered) || ProfileFilled(saved.value))
    ensures s == PROFILE <==> saved.Some? && !IsTrue(saved.value.isRegistered) && !ProfileFilled(saved.value)
                              && Filled(saved.value.phone) && saved.value.role.Some?
    ensures s == ROLE <==> saved.Some? && !IsTrue(saved.value.isRegistered) && !ProfileFilled(saved.value)
                           && !(Filled(saved.value.phone) && saved.value.role.Some?)
                           && Filled(saved.value.phone) && IsTrue(saved.value.termsAccepted)
  {
    match saved
    case None => PHONE
    case Some(b) =>
      if IsTrue(b.isRegistered) then COMPLETE
      else if ProfileFilled(b) then COMPLETE
      else if Filled(b.phone) && b.role.Some? then PROFILE
      else if Filled(b.phone) && IsTrue(b.termsAccepted) then ROLE
      else PHONE
  }

  /** `b` is truthy in every key in which `a` is. */
  predicate AtLeastAsTruthy(b: Partial, a: Partial) {
    (Filled(a.phone) ==> Filled(b.phone)) &&
    (IsTrue(a.termsAccepted) ==> IsTrue(b.termsAccepted)) &&
    (a.role.Some? ==> b.role.Some?) &&
    (Filled(a.lastName) ==> Filled(b.lastName)) &&
    (Filled(a.firstName) ==> Filled(b.firstName)) &&
    (Filled(a.email) ==> Filled(b.email)) &&
    (Filled(a.password) ==> Filled(b.password)) &&
    (Filled(a.identificationNumber) ==> Filled(b.identificationNumber)) &&
    (IsTrue(a.isRegistered) ==> IsTrue(b.isRegistered))
  }

  /** Making more keys truthy never lowers the resume step. */
  lemma DeriveMonotone(a: Partial, b: Partial)
    requires AtLeastAsTruthy(b, a)
    ensures DeriveInitialStep(Some(a)) <= DeriveInitialStep(Some(b))
  {
  }

  /** A missing or unparseable blob gives the defaults and the first step. */
  lemma MissingBlobGivesDefaults()
    ensures InitialData(None) == DefaultData && DeriveInitialStep(None) == PHONE
  {
  }

  /**
   * Every blob this store writes holds `role`, so a non-empty phone resumes at
   * PROFILE and the ROLE rule never fires for it.
   */
  lemma StoreWrittenBlobResume(r: Record)
    ensures DeriveInitialStep(Reload(Some(r))) ==
      if r.isRegistered then COMPLETE
      else if r.lastName != "" && r.firstName != "" && r.email != "" && r.password != ""
              && r.identificationNumber != "" then COMPLETE
      else if r.phone != "" then PROFILE
      else PHONE
    ensures DeriveInitialStep(Reload(Some(r))) != ROLE
  {
  }

  /** ROLE is the resume step only for a blob that lacks `role`. */
  lemma RoleResumeNeedsMissingRole(b: Partial)
    requires DeriveInitialStep(Some(b)) == ROLE
    ensures b.role.None? && Filled(b.phone) && IsTrue(b.termsAccepted) && !IsTrue(b.isRegistered)
  {
  }

  // ---------------------------------------------------------------------------
  // Step moves
  // ---------------------------------------------------------------------------

  /** `nextStep`: one step forward, stopping at COMPLETE. */
  function Next(s: Step): (t: Step)
    ensures s <= t <= s + 1
    ensures t == s <==> s == COMPLETE
  {
    if s < COMPLETE then s + 1 else s
  }

  /** `prevStep`: one step back, stopping at PHONE. */
  function Prev(s: Step): (t: Step)
    ensures s - 1 <= t <= s
    ensures t == s <==> s == PHONE
  {
    if s > PHONE then s - 1 else s
  }

  function Min(a: int, b: int): int { if a <= b then a else b }
  function Max(a: int, b: int): int { if a >= b then a else b }

  /** `n` calls of `nextStep` in a row. */
  function NextTimes(s: Step, n: nat): Step {
    if n == 0 then s else Next(NextTimes(s, n - 1))
  }

  /** `n` calls of `prevStep` in a row. */
  function PrevTimes(s: Step, n: nat): Step {
    if n == 0 then s else Prev(PrevTimes(s, n - 1))
  }

  /** `n` forward moves clamp at COMPLETE; in particular COMPLETE stays COMPLETE. */
  lemma {:induction false} NextTimesClamps(s: Step, n: nat)
    ensures NextTimes(s, n) == Min(s + n, COMPLETE)
  {
    if n > 0 {
      NextTimesClamps(s, n - 1);
    }
  }

  /** `n` backward moves clamp at PHONE; in particular PHONE stays PHONE. */
  lemma {:induction false} PrevTimesClamps(s: Step, n: nat)
    ensures PrevTimes(s, n) == Max(s - n, PHONE)
  {
    if n > 0 {
      PrevTimesClamps(s, n - 1);
    }
  }

  /** Away from the ends, one move back undoes one move forward and vice versa. */
  lemma PrevUndoesNext(s: Step)
    ensures s < COMPLETE ==> Prev(Next(s)) == s
    ensures s > PHONE ==> Next(Prev(s)) == s
  {
  }

  // ---------------------------------------------------------------------------
  // The store
  // ---------------------------------------------------------------------------

  class Store {
    var data: Record
    var step: Step
    var editing: bool
    /** The persisted blob, `None` when the key is absent. */
    var storage: Option<Record>
    /**
     * Whether `data` is the `defaultData` object itself. React compares state
     * by identity, so the mirroring effect runs only when this object changes.
     */
    var dataIsDefaultObject: bool

    ghost predicate Valid()
      reads this
    {
      (dataIsDefaultObject ==> data == DefaultData) &&
      (storage == Some(data) || (storage == None && dataIsDefaultObject))
    }

    /** Mounting the provider: both initialisers, then the mirroring effect's first run. */
    constructor Load(saved: Option<Partial>)
      ensures Valid()
      ensures data == InitialData(saved) && step == DeriveInitialStep(saved) && !editing
      ensures storage == Some(data)
      ensures dataIsDefaultObject == saved.None?
      ensures DefaultObjectOnlyAtPhone(dataIsDefaultObject, step)
    {
      data := InitialData(saved);
      step := DeriveInitialStep(saved);
      editing := false;
      dataIsDefaultObject := saved.None?;
      storage := Some(InitialData(saved));
    }

    /** `updateData(partial)`: a shallow merge, mirrored into storage. */
    method UpdateData(p: Partial)
      requires Valid()
      modifies this
      ensures Valid()
      ensures data == Merge(old(data), p) && storage == Some(data)
      ensures step == old(step) && editing == old(editing)
      ensures !dataIsDefaultObject
    {
      data := Merge(data, p);
      dataIsDefaultObject := false;
      storage := Some(data);
    }

    /** `setStep(step)`: unconditional. */
    method SetStep(s: Step)
      requires Valid()
      modifies this`step
      ensures Valid() && step == s
    {
      step := s;
    }

    method NextStep()
      requires Valid()
      modifies this`step
      ensures Valid() && step == Next(old(step))
    {
      if step < COMPLETE {
        step := step + 1;
      }
    }

    method PrevStep()
      requires Valid()
      modifies this`step
      ensures Valid() && step == Prev(old(step))
    {
      if step > PHONE {
        step := step - 1;
      }
    }

    /**
     * `reset`: defaults, PHONE, not editing, and the blob removed. The
     * mirroring effect then writes the defaults back unless `data` already
     * was the defaults object.
     */
    method Reset()
      requires Valid()
      modifies this
      ensures Valid()
      ensures data == DefaultData && step == PHONE && !editing
      ensures storage == if old(dataIsDefaultObject) then None else Some(DefaultData)
      ensures dataIsDefaultObject
    {
      storage := None;
      var changed := !dataIsDefaultObject;
      data := DefaultData;
      dataIsDefaultObject := true;
      step := PHONE;
      editing := false;
      if changed {
        storage := Some(data);
      }
    }

    /** `setIsEditing(b)`: the flag only. */
    method SetIsEditing(b: bool)
      requires Valid()
      modifies this`editing
      ensures Valid() && editing == b
    {
      editing := b;
    }
  }

  /** A reload reads back exactly the store's data. */
  lemma ReloadRestoresData(storage: Option<Record>, data: Record)
    requires storage == Some(data) || (storage == None && data == DefaultData)
    ensures InitialData(Reload(storage)) == data
  {
  }

  /** Whatever was stored before, a reload after `reset` starts over at PHONE with the defaults. */
  lemma ReloadAfterReset(storage: Option<Record>)
    requires storage == None || storage == Some(DefaultData)
    ensures DeriveInitialStep(Reload(storage)) == PHONE
    ensures InitialData(Reload(storage)) == DefaultData
  {
  }

  /**
   * The invariant the step screens keep (the store alone does not): edit mode
   * is entered only together with a jump to PROFILE and is left on every
   * action of the profile form.
   */
  predicate EditingOnlyAtProfile(editing: bool, step: Step) {
    editing ==> step == PROFILE
  }

  /**
   * The other invariant the screens keep: `data` is the `defaultData` object
   * only on the phone screen. Every way past it writes data first, and a
   * start from a stored blob builds a fresh object.
   */
  predicate DefaultObjectOnlyAtPhone(isDefaultObject: bool, step: Step) {
    isDefaultObject ==> step == PHONE
  }

  datatype ContextError = OutsideProvider

  /** `useRegistration`: the store of the enclosing provider, an error outside one. */
  function UseRegistration(context: Option<Store>): (r: Result<Store, ContextError>)
    ensures r.Success? <==> context.Some?
    ensures r.Success? ==> r.value == context.value
  {
    match context
    case None => Failure(OutsideProvider)
    case Some(s) => Success(s)
  }
}
