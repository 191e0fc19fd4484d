/**
 * The shapes shared by the whole wizard: roles, wizard steps and the
 * registration record, plus `Partial`, a record whose keys may be absent
 * (both `Partial<RegistrationData>` and a parsed persisted blob).
 */
module Types {
  import opened Wrappers

  /** `UserRole`: exactly one of two values. */
  datatype Role = Customer | Carrier

  /** The role's string value as stored and compared in the screens. */
  function RoleName(r: Role): (s: string)
    ensures s == "customer" <==> r == Customer
    ensures s == "carrier" <==> r == Carrier
  {
    match r
    case Customer => "customer"
    case Carrier => "carrier"
  }

  /** `REGISTRATION_STEPS`. */
  const PHONE: int := 0
  const ROLE: int := 1
  const OTP: int := 2
  const PROFILE: int := 3
  const COMPLETE: int := 4

  /** `RegistrationStep = 0 | 1 | 2 | 3 | 4`. */
  type Step = s: int | PHONE <= s <= COMPLETE

  /**
   * `RegistrationData`: the phone step's fields, the role, the profile fields
   * and `isRegistered`. `middleName` is the one optional profile field; the
   * record always holds it, as the empty string by default.
   */
  datatype Record = Record(
    phone: string,
    termsAccepted: bool,
    role: Role,
    lastName: string,
    firstName: string,
    middleName: string,
    email: string,
    password: string,
    identificationNumber: string,
    isRegistered: bool)

  /** A record some of whose keys are absent (`None`). */
  datatype Partial = Partial(
    phone: Option<string>,
    termsAccepted: Option<bool>,
    role: Option<Role>,
    lastName: Option<string>,
    firstName: Option<string>,
    middleName: Option<string>,
    email: Option<string>,
    password: Option<string>,
    identificationNumber: Option<string>,
    isRegistered: Option<bool>)

  /** `{}` */
  const NoKeys := Partial(None, None, None, None, None, None, None, None, None, None)

  /** The keys of a record, to speak of "every field" at once. */
  datatype Key =
    | PhoneKey | TermsAcceptedKey | RoleKey | LastNameKey | FirstNameKey | MiddleNameKey
    | EmailKey | PasswordKey | IdentificationNumberKey | IsRegisteredKey

  /** A field's value, whatever its type. */
  datatype Value = Str(s: string) | Flag(b: bool) | RoleValue(r: Role)

  function Get(r: Record, k: Key): Value {
    match k
    case PhoneKey => Str(r.phone)
    case TermsAcceptedKey => Flag(r.termsAccepted)
    case RoleKey => RoleValue(r.role)
    case LastNameKey => Str(r.lastName)
    case FirstNameKey => Str(r.firstName)
    case MiddleNameKey => Str(r.middleName)
    case EmailKey => Str(r.email)
    case PasswordKey => Str(r.password)
    case IdentificationNumberKey => Str(r.identificationNumber)
    case IsRegisteredKey => Flag(r.isRegistered)
  }

  /** The value a partial holds under `k`, if the key is present. */
  function Lookup(p: Partial, k: Key): Option<Value> {
    match k
    case PhoneKey => if p.phone.Some? then Some(Str(p.phone.value)) else None
    case TermsAcceptedKey => if p.termsAccepted.Some? then Some(Flag(p.termsAccepted.value)) else None
    case RoleKey => if p.role.Some? then Some(RoleValue(p.role.value)) else None
    case LastNameKey => if p.lastName.Some? then Some(Str(p.lastName.value)) else None
    case FirstNameKey => if p.firstName.Some? then Some(Str(p.firstName.value)) else None
    case MiddleNameKey => if p.middleName.Some? then Some(Str(p.middleName.value)) else None
    case EmailKey => if p.email.Some? then Some(Str(p.email.value)) else None
    case PasswordKey => if p.password.Some? then Some(Str(p.password.value)) else None
    case IdentificationNumberKey =>
      if p.identificationNumber.Some? then Some(Str(p.identificationNumber.value)) else None
    case IsRegisteredKey => if p.isRegistered.Some? then Some(Flag(p.isRegistered.value)) else None
  }

  /** Two records that agree on every key are the same record. */
  lemma RecordExtensionality(r: Record, s: Record)
    requires forall k :: Get(r, k) == Get(s, k)
    ensures r == s
  {
    assert Get(r, PhoneKey) == Get(s, PhoneKey);
    assert Get(r, TermsAcceptedKey) == Get(s, TermsAcceptedKey);
    assert Get(r, RoleKey) == Get(s, RoleKey);
    assert Get(r, LastNameKey) == Get(s, LastNameKey);
    assert Get(r, FirstNameKey) == Get(s, FirstNameKey);
    assert Get(r, MiddleNameKey) == Get(s, MiddleNameKey);
    assert Get(r, EmailKey) == Get(s, EmailKey);
    assert Get(r, PasswordKey) == Get(s, PasswordKey);
    assert Get(r, IdentificationNumberKey) == Get(s, IdentificationNumberKey);
    assert Get(r, IsRegisteredKey) == Get(s, IsRegisteredKey);
  }
}
