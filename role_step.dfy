/** The role screen: picking a role, continuing and going back. */
module RoleStep {
  import opened Wrappers
  import opened Types
  import opened RegistrationContext

  /** The partial `handleRoleSelect` writes: `{ role }` and nothing else. */
  function RoleUpdate(role: Role): (p: Partial)
    ensures forall k :: Lookup(p, k).Some? <==> k == RoleKey
    ensures Lookup(p, RoleKey) == Some(RoleValue(role))
  {
    NoKeys.(role := Some(role))
  }

  /** Selecting the same role a second time leaves the record as the first selection did. */
  lemma SelectTwiceSameAsOnce(r: Record, role: Role)
    ensures Merge(Merge(r, RoleUpdate(role)), RoleUpdate(role)) == Merge(r, RoleUpdate(role))
    ensures Merge(r, RoleUpdate(role)) == r.(role := role)
  {
    MergeIdempotent(r, RoleUpdate(role));
  }

  /** `disabled={!data.role}`, inverted: the continue button's enabling condition. */
  predicate ContinueEnabled(r: Record) {
    RoleName(r.role) != ""
  }

  /** Every role is a non-empty string, so continue is never disabled. */
  lemma ContinueAlwaysEnabled(r: Record)
    ensures ContinueEnabled(r)
  {
  }

  /** `handleRoleSelect(role)`: writes the role, keeps the step. */
  method SelectRole(store: Store, role: Role)
    requires store.Valid() && !store.editing && store.step == ROLE
    requires DefaultObjectOnlyAtPhone(store.dataIsDefaultObject, store.step)
    modifies store
    ensures store.Valid() && DefaultObjectOnlyAtPhone(store.dataIsDefaultObject, store.step)
    ensures store.data == old(store.data).(role := role) && store.storage == Some(store.data)
    ensures !store.dataIsDefaultObject
    ensures store.step == old(store.step) && store.editing == old(store.editing)
  {
    store.UpdateData(RoleUpdate(role));
  }

  /** `handleContinue`: one step forward, no data written. */
  method Continue(store: Store)
    requires store.Valid() && !store.editing && store.step == ROLE
    requires DefaultObjectOnlyAtPhone(store.dataIsDefaultObject, store.step)
    modifies store
    ensures store.Valid() && DefaultObjectOnlyAtPhone(store.dataIsDefaultObject, store.step)
    ensures store.step == OTP
    ensures store.data == old(store.data) && store.storage == old(store.storage)
    ensures store.editing == old(store.editing)
    ensures store.dataIsDefaultObject == old(store.dataIsDefaultObject)
  {
    if ContinueEnabled(store.data) {
      store.NextStep();
    }
  }

  /** The back button: one step back. */
  method Back(store: Store)
    requires store.Valid() && !store.editing && store.step == ROLE
    requires DefaultObjectOnlyAtPhone(store.dataIsDefaultObject, store.step)
    modifies store
    ensures store.Valid() && DefaultObjectOnlyAtPhone(store.dataIsDefaultObject, store.step)
    ensures store.step == PHONE
    ensures store.data == old(store.data) && store.storage == old(store.storage)
    ensures store.editing == old(store.editing)
    ensures store.dataIsDefaultObject == old(store.dataIsDefaultObject)
  {
    store.PrevStep();
  }
}
