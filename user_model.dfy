/**
 * The user record as the mongoose schema declares it. The address strings
 * are optional in the stored record because the schema spells the option
 * `requiured`, which mongoose ignores; `isDefault` defaults to false; every
 * subdocument gets its own `_id`. `password` is `select: false`: default reads
 * return a `PublicUser` without it.
 */
module UserModel {
  import opened Wrappers
  import opened AuthSchemas
  import opened Ids

  datatype StoredAddress = StoredAddress(
    id: ObjectId, street: Option<string>, city: Option<string>, state: Option<string>,
    zip: Option<string>, country: Option<string>, isDefault: bool)

  datatype User = User(
    id: ObjectId, username: string, email: string, password: string,
    fullName: FullName, role: Option<Role>, addresses: seq<StoredAddress>)

  /** What a read without `.select("+password")` returns. */
  datatype PublicUser = PublicUser(
    id: ObjectId, username: string, email: string,
    fullName: FullName, role: Option<Role>, addresses: seq<StoredAddress>)

  /** The default projection: every field except the password. */
  function PublicView(u: User): (v: PublicUser)
    ensures v.id == u.id && v.username == u.username && v.email == u.email
    ensures v.fullName == u.fullName && v.role == u.role && v.addresses == u.addresses
  {
    PublicUser(u.id, u.username, u.email, u.fullName, u.role, u.addresses)
  }

  /** Casting a validated address into the subdocument schema: a fresh `_id`, `isDefault` false unless given. */
  function CastAddress(a: AddressInput, id: ObjectId): (s: StoredAddress)
    ensures s.id == id
    ensures s.street == Some(a.street) && s.city == Some(a.city) && s.state == Some(a.state)
    ensures s.zip == Some(a.zip) && s.country == Some(a.country)
    ensures a.isDefault.None? ==> !s.isDefault
    ensures a.isDefault.Some? ==> s.isDefault == a.isDefault.value
  {
    StoredAddress(id, Some(a.street), Some(a.city), Some(a.state), Some(a.zip), Some(a.country), a.isDefault.GetOr(false))
  }

  /** Casting a list of addresses, numbering their ids from `first` in list order. */
  function CastAddresses(inputs: seq<AddressInput>, first: ObjectId): (s: seq<StoredAddress>)
    ensures |s| == |inputs|
    ensures forall i :: 0 <= i < |inputs| ==> s[i] == CastAddress(inputs[i], first + i)
    decreases |inputs|
  {
    if inputs == [] then []
    else [CastAddress(inputs[0], first)] + CastAddresses(inputs[1..], first + 1)
  }

  /** An address whose five strings are all present and non-empty, as the request schemas demand. */
  predicate CompleteAddress(a: StoredAddress) {
    a.street.Some? && a.street.value != "" && a.city.Some? && a.city.value != "" &&
    a.state.Some? && a.state.value != "" && a.zip.Some? && a.zip.value != "" &&
    a.country.Some? && a.country.value != ""
  }

  /** `unique: true` on `username` and on `email`, and distinct `_id`s. */
  predicate UniqueKeys(users: seq<User>) {
    forall i, j :: 0 <= i < j < |users| ==>
      users[i].id != users[j].id && users[i].username != users[j].username && users[i].email != users[j].email
  }

  /** `required: true` on `username`, `email` and `password` (mongoose rejects the empty string). */
  predicate RequiredPresent(u: User) {
    u.username != "" && u.email != "" && u.password != ""
  }

  /** Whether a new record with these keys passes the required and unique checks against the collection. */
  predicate Insertable(users: seq<User>, username: string, email: string, password: string) {
    username != "" && email != "" && password != "" &&
    forall i :: 0 <= i < |users| ==> users[i].username != username && users[i].email != email
  }

  /** A validated address always casts to a complete subdocument, so the misspelled option never matters on these paths. */
  lemma CastAddressComplete(a: AddressInput, id: ObjectId)
    requires a.street != "" && a.city != "" && a.state != "" && a.zip != "" && a.country != ""
    ensures CompleteAddress(CastAddress(a, id))
  {
  }
}
