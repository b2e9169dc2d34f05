/**
 * The identity service's request schemas (zod). A raw body field is `None`
 * when the key is missing; `Parse…` plays `safeParse`: `Some(data)` on
 * success, `None` on a validation error. The e-mail format check belongs to
 * the validation library and is passed in as `isEmail`.
 */
module AuthSchemas {
  import opened Wrappers

  datatype RawFullName = RawFullName(firstName: Option<string>, lastName: Option<string>)

  datatype RawAddress = RawAddress(
    street: Option<string>, city: Option<string>, state: Option<string>,
    zip: Option<string>, country: Option<string>, isDefault: Option<bool>)

  datatype RawRegistration = RawRegistration(
    username: Option<string>, email: Option<string>, password: Option<string>,
    fullName: Option<RawFullName>, role: Option<string>, addresses: Option<seq<RawAddress>>)

  datatype RawLogin = RawLogin(email: Option<string>, username: Option<string>, password: Option<string>)

  datatype FullName = FullName(firstName: string, lastName: string)

  datatype AddressInput = AddressInput(
    street: string, city: string, state: string, zip: string, country: string, isDefault: Option<bool>)

  datatype Role = UserRole | SellerRole

  datatype Registration = Registration(
    username: string, email: string, password: string,
    fullName: FullName, role: Role, addresses: Option<seq<AddressInput>>)

  datatype Credentials = Credentials(email: Option<string>, username: Option<string>, password: string)

  datatype AddressPatch = AddressPatch(
    street: Option<string>, city: Option<string>, state: Option<string>,
    zip: Option<string>, country: Option<string>, isDefault: Option<bool>)

  /** `z.string().min(n)`: the key is present and the string has at least `n` characters. */
  predicate AtLeast(field: Option<string>, n: nat) {
    field.Some? && |field.value| >= n
  }

  /** `z.string().min(n).optional()`: absent, or present with at least `n` characters. */
  predicate AbsentOrAtLeast(field: Option<string>, n: nat) {
    field.None? || |field.value| >= n
  }

  /** `fullNameSchema`. */
  function ParseFullName(raw: RawFullName): (r: Option<FullName>)
    ensures r.Some? <==> raw.firstName.Some? && raw.firstName.value != "" && raw.lastName.Some? && raw.lastName.value != ""
    ensures r.Some? ==> r.value == FullName(raw.firstName.value, raw.lastName.value)
  {
    if AtLeast(raw.firstName, 1) && AtLeast(raw.lastName, 1)
    then Some(FullName(raw.firstName.value, raw.lastName.value))
    else None
  }

  /** Every one of the five address strings is present and non-empty. */
  predicate AddressStringsPresent(raw: RawAddress) {
    AtLeast(raw.street, 1) && AtLeast(raw.city, 1) && AtLeast(raw.state, 1) &&
    AtLeast(raw.zip, 1) && AtLeast(raw.country, 1)
  }

  /** `addressSchema`, and `createAddressSchema`, which declares the same six fields. */
  function ParseAddress(raw: RawAddress): (r: Option<AddressInput>)
    ensures r.Some? <==>
      raw.street.Some? && raw.street.value != "" && raw.city.Some? && raw.city.value != "" &&
      raw.state.Some? && raw.state.value != "" && raw.zip.Some? && raw.zip.value != "" &&
      raw.country.Some? && raw.country.value != ""
    ensures r.Some? ==> r.value == AddressInput(
      raw.street.value, raw.city.value, raw.state.value, raw.zip.value, raw.country.value, raw.isDefault)
  {
    if AddressStringsPresent(raw)
    then Some(AddressInput(raw.street.value, raw.city.value, raw.state.value, raw.zip.value, raw.country.value, raw.isDefault))
    else None
  }

  /** `z.array(addressSchema)`: every element must parse; the parsed list keeps the order. */
  function ParseAddresses(raws: seq<RawAddress>): (r: Option<seq<AddressInput>>)
    ensures r.Some? <==> forall i :: 0 <= i < |raws| ==> ParseAddress(raws[i]).Some?
    ensures r.Some? ==> |r.value| == |raws| && forall i :: 0 <= i < |raws| ==> r.value[i] == ParseAddress(raws[i]).value
    decreases |raws|
  {
    if raws == [] then Some([])
    else
      match (ParseAddress(raws[0]), ParseAddresses(raws[1..]))
      case (Some(a), Some(rest)) => Some([a] + rest)
      case _ => None
  }

  /** `z.enum(["user", "seller"])`. */
  function ParseRole(raw: Option<string>): (r: Option<Role>)
    ensures r == Some(UserRole) <==> raw == Some("user")
    ensures r == Some(SellerRole) <==> raw == Some("seller")
  {
    if raw == Some("user") then Some(UserRole)
    else if raw == Some("seller") then Some(SellerRole)
    else None
  }

  /** `userRegisterSchema`. */
  function ParseRegistration(raw: RawRegistration, isEmail: string -> bool): (r: Option<Registration>)
    ensures r.Some? <==>
      && raw.username.Some? && |raw.username.value| >= 3
      && raw.email.Some? && isEmail(raw.email.value)
      && raw.password.Some? && |raw.password.value| >= 6
      && raw.fullName.Some? && ParseFullName(raw.fullName.value).Some?
      && (raw.role == Some("user") || raw.role == Some("seller"))
      && (raw.addresses.Some? ==> forall i :: 0 <= i < |raw.addresses.value| ==> ParseAddress(raw.addresses.value[i]).Some?)
    ensures r.Some? ==>
      && r.value.username == raw.username.value
      && r.value.email == raw.email.value
      && r.value.password == raw.password.value
      && r.value.fullName == ParseFullName(raw.fullName.value).value
      && r.value.role == (if raw.role == Some("user") then UserRole else SellerRole)
      && r.value.addresses.Some? == raw.addresses.Some?
      && (raw.addresses.Some? ==> r.value.addresses == ParseAddresses(raw.addresses.value))
  {
    var fullName := if raw.fullName.Some? then ParseFullName(raw.fullName.value) else None;
    var role := ParseRole(raw.role);
    var addresses := if raw.addresses.Some? then ParseAddresses(raw.addresses.value) else Some([]);
    if AtLeast(raw.username, 3) && raw.email.Some? && isEmail(raw.email.value) && AtLeast(raw.password, 6)
       && fullName.Some? && role.Some? && addresses.Some?
    then Some(Registration(
      raw.username.value, raw.email.value, raw.password.value, fullName.value, role.value,
      if raw.addresses.Some? then addresses else None))
    else None
  }

  /** The refinement on `userLoginSchema`: `data.email || data.username` is truthy. */
  predicate EmailOrUsername(email: Option<string>, username: Option<string>) {
    AtLeast(email, 1) || AtLeast(username, 1)
  }

  /** `userLoginSchema`, refinement included. */
  function ParseLogin(raw: RawLogin, isEmail: string -> bool): (r: Option<Credentials>)
    ensures r.Some? <==>
      && (raw.email.Some? ==> isEmail(raw.email.value))
      && (raw.username.Some? ==> |raw.username.value| >= 3)
      && raw.password.Some? && |raw.password.value| >= 6
      && ((raw.email.Some? && raw.email.value != "") || raw.username.Some?)
    ensures r.Some? ==> r.value == Credentials(raw.email, raw.username, raw.password.value)
  {
    if (raw.email.None? || isEmail(raw.email.value)) && AbsentOrAtLeast(raw.username, 3) && AtLeast(raw.password, 6)
       && EmailOrUsername(raw.email, raw.username)
    then Some(Credentials(raw.email, raw.username, raw.password.value))
    else None
  }

  /** `updateAddressSchema`: every key optional, but a string that is given is non-empty. */
  function ParseAddressPatch(raw: RawAddress): (r: Option<AddressPatch>)
    ensures r.Some? <==>
      (raw.street.Some? ==> raw.street.value != "") && (raw.city.Some? ==> raw.city.value != "") &&
      (raw.state.Some? ==> raw.state.value != "") && (raw.zip.Some? ==> raw.zip.value != "") &&
      (raw.country.Some? ==> raw.country.value != "")
    ensures r.Some? ==> r.value == AddressPatch(raw.street, raw.city, raw.state, raw.zip, raw.country, raw.isDefault)
  {
    if AbsentOrAtLeast(raw.street, 1) && AbsentOrAtLeast(raw.city, 1) && AbsentOrAtLeast(raw.state, 1) &&
       AbsentOrAtLeast(raw.zip, 1) && AbsentOrAtLeast(raw.country, 1)
    then Some(AddressPatch(raw.street, raw.city, raw.state, raw.zip, raw.country, raw.isDefault))
    else None
  }

  /** A body that parses as a new address also parses as a patch that sets every field. */
  lemma AddressIsCompletePatch(raw: RawAddress)
    requires ParseAddress(raw).Some?
    ensures ParseAddressPatch(raw).Some?
    ensures
      var a := ParseAddress(raw).value;
      ParseAddressPatch(raw) == Some(AddressPatch(Some(a.street), Some(a.city), Some(a.state), Some(a.zip), Some(a.country), a.isDefault))
  {
  }

  /** Registration without an address list is valid exactly when it is valid with an empty one. */
  lemma AddressesOptionalAtRegistration(raw: RawRegistration, isEmail: string -> bool)
    requires raw.addresses.None?
    ensures ParseRegistration(raw, isEmail).Some? == ParseRegistration(raw.(addresses := Some([])), isEmail).Some?
  {
  }
}
