/**
 * The identity service's request handlers over an abstract user store.
 * `registerUser`, `addAddress` and `deleteAddress` change the store and are
 * methods of `UserStore`; `login`, `getMe`, `logout` and `getAddresses` only
 * read and are functions. Password hashing, password comparison and token
 * signing are library calls and come in as parameters.
 */
module UserController {
  import opened Wrappers
  import opened AuthSchemas
  import opened UserModel
  import opened Ids

  /** The expiry every token is signed with. */
  const SevenDays: string := "7d"

  /** The claim set handed to `jwt.sign`: `{ id, role }` and `expiresIn`. */
  datatype TokenClaims = TokenClaims(id: ObjectId, role: Option<Role>, expiresIn: string)

  /** What the handler does to the `token` cookie. */
  datatype CookieAction = KeepCookie | SetTokenCookie(value: string) | ClearTokenCookie

  /** The JSON body beside `message`. */
  datatype Body =
    | MessageOnly
    | WithToken(token: string)
    | WithAddresses(addresses: seq<StoredAddress>)
    | WithUser(user: Option<PublicUser>)

  datatype Reply = Reply(status: int, message: string, cookie: CookieAction, body: Body)

  /** The answer that carries a freshly signed token in both the cookie and the body. */
  function TokenReply(message: string, token: string): (r: Reply)
    ensures r.status == 200 && r.cookie == SetTokenCookie(token) && r.body == WithToken(token)
  {
    Reply(200, message, SetTokenCookie(token), WithToken(token))
  }

  function Failure(status: int, message: string): (r: Reply)
    ensures r.status == status && r.message == message && r.cookie == KeepCookie && r.body == MessageOnly
  {
    Reply(status, message, KeepCookie, MessageOnly)
  }

  // ---------------------------------------------------------------- store lookups

  /** `findById` / `findByIdAndUpdate`: the position of the record with this `_id`. */
  function IndexOfUser(users: seq<User>, id: ObjectId): (r: Option<nat>)
    ensures r.Some? ==> r.value < |users| && users[r.value].id == id
    ensures r.Some? ==> forall j :: 0 <= j < r.value ==> users[j].id != id
    ensures r.None? ==> forall j :: 0 <= j < |users| ==> users[j].id != id
    decreases |users|
  {
    if users == [] then None
    else if users[0].id == id then Some(0)
    else
      match IndexOfUser(users[1..], id)
      case None => None
      case Some(k) => Some(k + 1)
  }

  /** `{ $or: [{ email }, { username }] }`; a key the body left out matches no record. */
  predicate MatchesIdentifier(u: User, email: Option<string>, username: Option<string>) {
    (email.Some? && u.email == email.value) || (username.Some? && u.username == username.value)
  }

  /** `findOne` with that filter: the first matching record in collection order. */
  function FindForLogin(users: seq<User>, email: Option<string>, username: Option<string>): (r: Option<User>)
    ensures r.Some? ==> r.value in users && MatchesIdentifier(r.value, email, username)
    ensures r.None? <==> forall j :: 0 <= j < |users| ==> !MatchesIdentifier(users[j], email, username)
    decreases |users|
  {
    if users == [] then None
    else if MatchesIdentifier(users[0], email, username) then Some(users[0])
    else FindForLogin(users[1..], email, username)
  }

  // ---------------------------------------------------------------- address book

  /** `$pull: { addresses: { _id } }`: drop every address with that id, keep the rest in order. */
  function RemoveById(addresses: seq<StoredAddress>, id: ObjectId): (r: seq<StoredAddress>)
    ensures |r| <= |addresses|
    ensures forall k :: 0 <= k < |r| ==> r[k].id != id && r[k] in addresses
    ensures forall k :: 0 <= k < |addresses| && addresses[k].id != id ==> addresses[k] in r
    ensures forall x :: multiset(r)[x] == if x.id == id then 0 else multiset(addresses)[x]
    decreases |addresses|
  {
    if addresses == [] then []
    else
      assert addresses == [addresses[0]] + addresses[1..];
      if addresses[0].id == id then RemoveById(addresses[1..], id)
      else [addresses[0]] + RemoveById(addresses[1..], id)
  }

  /** `a` is `b` with some elements left out and the rest in their original order. */
  predicate Subsequence(a: seq<StoredAddress>, b: seq<StoredAddress>)
    decreases |b|
  {
    if a == [] then true
    else if b == [] then false
    else if a[0] == b[0] then Subsequence(a[1..], b[1..])
    else Subsequence(a, b[1..])
  }

  /** Deletion keeps the surviving addresses in their original order. */
  lemma {:induction false} RemoveByIdKeepsOrder(addresses: seq<StoredAddress>, id: ObjectId)
    ensures Subsequence(RemoveById(addresses, id), addresses)
    decreases |addresses|
  {
    if addresses != [] {
      RemoveByIdKeepsOrder(addresses[1..], id);
      if addresses[0].id != id {
        var r := RemoveById(addresses, id);
        assert r == [addresses[0]] + RemoveById(addresses[1..], id);
        assert r[1..] == RemoveById(addresses[1..], id);
      } else {
        SubsequenceOfTail(RemoveById(addresses[1..], id), addresses);
      }
    }
  }

  lemma {:induction false} SubsequenceOfTail(a: seq<StoredAddress>, b: seq<StoredAddress>)
    requires b != [] && Subsequence(a, b[1..])
    ensures Subsequence(a, b)
    decreases |b|, |a|
  {
    if a != [] && a[0] == b[0] {
      SubsequenceDropHead(a, b[1..]);
    }
  }

  lemma {:induction false} SubsequenceDropHead(a: seq<StoredAddress>, b: seq<StoredAddress>)
    requires a != [] && Subsequence(a, b)
    ensures Subsequence(a[1..], b)
    decreases |b|, |a|
  {
    assert b != [];
    if a[0] == b[0] {
      if a[1..] != [] {
        SubsequenceOfTail(a[1..], b);
      }
    } else {
      SubsequenceDropHead(a, b[1..]);
      SubsequenceOfTail(a[1..], b);
    }
  }

  /** Deleting an id that no address carries changes nothing. */
  lemma {:induction false} RemoveAbsentId(addresses: seq<StoredAddress>, id: ObjectId)
    requires forall k :: 0 <= k < |addresses| ==> addresses[k].id != id
    ensures RemoveById(addresses, id) == addresses
    decreases |addresses|
  {
    if addresses != [] {
      RemoveAbsentId(addresses[1..], id);
      assert [addresses[0]] + addresses[1..] == addresses;
    }
  }

  /** Deleting twice is deleting once. */
  lemma RemoveByIdIdempotent(addresses: seq<StoredAddress>, id: ObjectId)
    ensures RemoveById(RemoveById(addresses, id), id) == RemoveById(addresses, id)
  {
    RemoveAbsentId(RemoveById(addresses, id), id);
  }

  /** Deleting the address just added, by its fresh id, restores the list. */
  lemma {:induction false} DeleteUndoesAdd(addresses: seq<StoredAddress>, added: StoredAddress)
    requires forall k :: 0 <= k < |addresses| ==> addresses[k].id != added.id
    ensures RemoveById(addresses + [added], added.id) == addresses
    decreases |addresses|
  {
    if addresses == [] {
      assert [] + [added] == [added];
      assert [added][1..] == [];
    } else {
      assert (addresses + [added])[1..] == addresses[1..] + [added];
      DeleteUndoesAdd(addresses[1..], added);
      assert [addresses[0]] + addresses[1..] == addresses;
    }
  }

  // ---------------------------------------------------------------- the store

  /** What the handlers keep true of the collection: the schema's unique and required keys, a role on every record
      (registration always supplies one), fresh ids below the counter, and complete addresses. */
  predicate StoreInvariant(users: seq<User>, nextId: ObjectId) {
    && UniqueKeys(users)
    && (forall i :: 0 <= i < |users| ==> RequiredPresent(users[i]) && users[i].role.Some? && users[i].id < nextId)
    && (forall i, k :: 0 <= i < |users| && 0 <= k < |users[i].addresses| ==>
          users[i].addresses[k].id < nextId && CompleteAddress(users[i].addresses[k]))
  }

  /** The record `User.create` builds from a validated registration: addresses default to the empty list. */
  function NewUser(id: ObjectId, data: Registration, hashed: string): (u: User)
    ensures u.id == id && u.username == data.username && u.email == data.email && u.password == hashed
    ensures u.fullName == data.fullName && u.role == Some(data.role)
    ensures |u.addresses| == |data.addresses.GetOr([])|
    ensures forall k :: 0 <= k < |u.addresses| ==> u.addresses[k] == CastAddress(data.addresses.GetOr([])[k], id + 1 + k)
  {
    User(id, data.username, data.email, hashed, data.fullName, Some(data.role), CastAddresses(data.addresses.GetOr([]), id + 1))
  }

  /** The addresses of a parsed registration are complete once cast. */
  lemma RegisteredAddressesComplete(raw: RawRegistration, isEmail: string -> bool, id: ObjectId, hashed: string)
    requires ParseRegistration(raw, isEmail).Some?
    ensures forall k :: 0 <= k < |NewUser(id, ParseRegistration(raw, isEmail).value, hashed).addresses| ==>
      CompleteAddress(NewUser(id, ParseRegistration(raw, isEmail).value, hashed).addresses[k])
  {
    var data := ParseRegistration(raw, isEmail).value;
    var u := NewUser(id, data, hashed);
    forall k | 0 <= k < |u.addresses|
      ensures CompleteAddress(u.addresses[k])
    {
      var raws := raw.addresses.value;
      assert data.addresses == ParseAddresses(raws);
      assert ParseAddress(raws[k]).Some?;
      CastAddressComplete(data.addresses.value[k], id + 1 + k);
    }
  }

  class UserStore {
    var users: seq<User>
    var nextId: ObjectId

    ghost predicate Valid()
      reads this
    {
      StoreInvariant(users, nextId)
    }

    constructor ()
      ensures Valid() && users == []
    {
      users := [];
      nextId := 0;
    }

    /** `registerUser`. `lookup` is what `User.find` resolved to: `None` for a null result, `Some` for a list;
        `hashed` is the digest stored as the password. */
    method Register(body: RawRegistration, isEmail: string -> bool, lookup: Option<seq<User>>,
                    hashed: string, sign: TokenClaims -> string) returns (reply: Reply)
      requires Valid()
      modifies this
      ensures Valid()
      ensures ParseRegistration(body, isEmail).None? ==>
        reply == Failure(400, "Invalid data") && users == old(users) && nextId == old(nextId)
      ensures ParseRegistration(body, isEmail).Some? && lookup.Some? ==>
        reply == Failure(400, "User already exists.") && users == old(users) && nextId == old(nextId)
      ensures ParseRegistration(body, isEmail).Some? && lookup.None? &&
              !Insertable(old(users), body.username.value, body.email.value, hashed) ==>
        reply == Failure(500, "Failed to register user.") && users == old(users) && nextId == old(nextId)
      ensures ParseRegistration(body, isEmail).Some? && lookup.None? &&
              Insertable(old(users), body.username.value, body.email.value, hashed) ==>
        && users == old(users) + [NewUser(old(nextId), ParseRegistration(body, isEmail).value, hashed)]
        && nextId == old(nextId) + 1 + |NewUser(old(nextId), ParseRegistration(body, isEmail).value, hashed).addresses|
        && reply == TokenReply("user created",
             sign(TokenClaims(old(nextId), Some(ParseRegistration(body, isEmail).value.role), SevenDays)))
    {
      var parsed := ParseRegistration(body, isEmail);
      if parsed.None? {
        return Failure(400, "Invalid data");
      }
      var data := parsed.value;
      if lookup.Some? {
        // `if (exists)`: any list, the empty one included, is truthy
        return Failure(400, "User already exists.");
      }
      if !Insertable(users, data.username, data.email, hashed) {
        // the unique indexes (or a required key) reject the insert; the catch answers 500
        return Failure(500, "Failed to register user.");
      }
      var user := NewUser(nextId, data, hashed);
      RegisteredAddressesComplete(body, isEmail, nextId, hashed);
      users := users + [user];
      nextId := nextId + 1 + |user.addresses|;
      var token := sign(TokenClaims(user.id, user.role, SevenDays));
      reply := TokenReply("user created", token);
    }

    /** `addAddress` for the signed-in user `userId`. */
    method AddAddress(userId: ObjectId, body: RawAddress) returns (reply: Reply)
      requires Valid()
      modifies this
      ensures Valid()
      ensures ParseAddress(body).None? ==>
        reply == Failure(400, "invalid data") && users == old(users) && nextId == old(nextId)
      ensures ParseAddress(body).Some? && IndexOfUser(old(users), userId).None? ==>
        reply == Failure(404, "user not found.") && users == old(users) && nextId == old(nextId)
      ensures ParseAddress(body).Some? && IndexOfUser(old(users), userId).Some? ==>
        var i := IndexOfUser(old(users), userId).value;
        var added := old(users)[i].addresses + [CastAddress(ParseAddress(body).value, old(nextId))];
        && users == old(users)[i := old(users)[i].(addresses := added)]
        && nextId == old(nextId) + 1
        && reply == Reply(200, "address added.", KeepCookie, WithAddresses(added))
    {
      var parsed := ParseAddress(body);
      if parsed.None? {
        return Failure(400, "invalid data");
      }
      var found := IndexOfUser(users, userId);
      if found.None? {
        return Failure(404, "user not found.");
      }
      var i := found.value;
      var address := CastAddress(parsed.value, nextId);
      CastAddressComplete(parsed.value, nextId);
      var added := users[i].addresses + [address];
      users := users[i := users[i].(addresses := added)];
      nextId := nextId + 1;
      reply := Reply(200, "address added.", KeepCookie, WithAddresses(added));
    }

    /** `deleteAddress` for the signed-in user `userId` and the path parameter `addressId`. */
    method DeleteAddress(userId: ObjectId, addressId: ObjectId) returns (reply: Reply)
      requires Valid()
      modifies this
      ensures Valid()
      ensures nextId == old(nextId)
      ensures IndexOfUser(old(users), userId).None? ==>
        reply == Failure(404, "user not found.") && users == old(users)
      ensures IndexOfUser(old(users), userId).Some? ==>
        var i := IndexOfUser(old(users), userId).value;
        var kept := RemoveById(old(users)[i].addresses, addressId);
        && users == old(users)[i := old(users)[i].(addresses := kept)]
        && reply == Reply(200, "Address deleted", KeepCookie, WithAddresses(kept))
    {
      var found := IndexOfUser(users, userId);
      if found.None? {
        return Failure(404, "user not found.");
      }
      var i := found.value;
      var kept := RemoveById(users[i].addresses, addressId);
      users := users[i := users[i].(addresses := kept)];
      reply := Reply(200, "Address deleted", KeepCookie, WithAddresses(kept));
    }
  }

  // ---------------------------------------------------------------- read-only handlers

  /** A JavaScript value the login chain branches on: a resolved boolean, or a promise object that was never awaited. */
  datatype Comparison = Resolved(matches: bool) | PendingPromise

  /** `if (!valid)`: a promise object is truthy whatever it will resolve to. */
  predicate Truthy(v: Comparison) {
    match v
    case Resolved(b) => b
    case PendingPromise => true
  }

  /** The `login` chain: validate, look up with the password selected, test `valid`, sign. */
  function LoginChain(users: seq<User>, body: RawLogin, isEmail: string -> bool,
                      valid: (string, string) -> Comparison, sign: TokenClaims -> string): (r: Reply)
    ensures r.status == 400 <==> ParseLogin(body, isEmail).None?
    ensures r.status == 404 <==>
      ParseLogin(body, isEmail).Some? &&
      FindForLogin(users, ParseLogin(body, isEmail).value.email, ParseLogin(body, isEmail).value.username).None?
  {
    match ParseLogin(body, isEmail)
    case None => Failure(400, "Invalid data")
    case Some(creds) =>
      match FindForLogin(users, creds.email, creds.username)
      case None => Failure(404, "User does not exist.")
      case Some(user) =>
        if !Truthy(valid(creds.password, user.password)) then Failure(403, "Invalid email/username or password")
        else TokenReply("Logged in successfully", sign(TokenClaims(user.id, user.role, SevenDays)))
  }

  /** `login` with the comparison awaited: `compare(password, digest)` is bcrypt's verdict. */
  function Login(users: seq<User>, body: RawLogin, isEmail: string -> bool,
                 compare: (string, string) -> bool, sign: TokenClaims -> string): (r: Reply)
    ensures r.status == 400 || r.status == 404 || r.status == 403 || r.status == 200
    ensures r.status == 400 <==> ParseLogin(body, isEmail).None?
    ensures r.status == 404 <==>
      ParseLogin(body, isEmail).Some? &&
      FindForLogin(users, ParseLogin(body, isEmail).value.email, ParseLogin(body, isEmail).value.username).None?
    ensures r.status == 403 <==>
      ParseLogin(body, isEmail).Some? &&
      FindForLogin(users, ParseLogin(body, isEmail).value.email, ParseLogin(body, isEmail).value.username).Some? &&
      !compare(ParseLogin(body, isEmail).value.password,
               FindForLogin(users, ParseLogin(body, isEmail).value.email, ParseLogin(body, isEmail).value.username).value.password)
    ensures r.status != 200 ==> r.cookie == KeepCookie && r.body == MessageOnly
    ensures r.status == 200 ==>
      var user := FindForLogin(users, ParseLogin(body, isEmail).value.email, ParseLogin(body, isEmail).value.username).value;
      r == TokenReply("Logged in successfully", sign(TokenClaims(user.id, user.role, SevenDays)))
  {
    LoginChain(users, body, isEmail, (password, digest) => Resolved(compare(password, digest)), sign)
  }

  /** `login` exactly as written: `bcrypt.compare` is not awaited, so `valid` is a promise object. */
  function LoginAsWritten(users: seq<User>, body: RawLogin, isEmail: string -> bool,
                          sign: TokenClaims -> string): (r: Reply)
    ensures r.status != 403
    ensures ParseLogin(body, isEmail).Some? &&
            FindForLogin(users, ParseLogin(body, isEmail).value.email, ParseLogin(body, isEmail).value.username).Some? ==>
      r.status == 200
  {
    LoginChain(users, body, isEmail, (password, digest) => PendingPromise, sign)
  }

  /** A wrong password: awaited, the comparison refuses; as written, the same request logs in. */
  lemma UnawaitedCompareAdmitsWrongPassword()
    ensures
      var alice := User(0, "alice", "alice@x.com", "digest", FullName("Alice", "Doe"), Some(UserRole), []);
      var body := RawLogin(None, Some("alice"), Some("wrong-password"));
      var isEmail := (s: string) => true;
      var sign := (c: TokenClaims) => "token";
      && Login([alice], body, isEmail, (p, d) => false, sign).status == 403
      && LoginAsWritten([alice], body, isEmail, sign).status == 200
  {
    var alice := User(0, "alice", "alice@x.com", "digest", FullName("Alice", "Doe"), Some(UserRole), []);
    var body := RawLogin(None, Some("alice"), Some("wrong-password"));
    var isEmail := (s: string) => true;
    assert ParseLogin(body, isEmail).Some?;
    assert FindForLogin([alice], None, Some("alice")) == Some(alice);
  }

  /** `getMe`: always 200; the record without its password, or nothing when the id is unknown. */
  function GetMe(users: seq<User>, userId: ObjectId): (r: Reply)
    ensures r.status == 200 && r.message == "Data fetched." && r.cookie == KeepCookie
    ensures IndexOfUser(users, userId).None? ==> r.body == WithUser(None)
    ensures IndexOfUser(users, userId).Some? ==>
      r.body == WithUser(Some(PublicView(users[IndexOfUser(users, userId).value])))
  {
    var user := match IndexOfUser(users, userId)
      case None => None
      case Some(i) => Some(PublicView(users[i]));
    Reply(200, "Data fetched.", KeepCookie, WithUser(user))
  }

  /** `logout`: clears the cookie; the server keeps no session and revokes nothing. */
  function Logout(): (r: Reply)
    ensures r.status == 200 && r.cookie == ClearTokenCookie && r.body == MessageOnly
  {
    Reply(200, "Logged out.", ClearTokenCookie, MessageOnly)
  }

  /** The lean document `findById(userId, { addresses: 1, _id: 0 })` returns. */
  datatype AddressProjection = AddressProjection(addresses: Option<seq<StoredAddress>>)

  function ProjectAddresses(users: seq<User>, userId: ObjectId): (p: Option<AddressProjection>)
    ensures p.Some? <==> IndexOfUser(users, userId).Some?
    ensures p.Some? ==> p.value.addresses == Some(users[IndexOfUser(users, userId).value].addresses)
  {
    match IndexOfUser(users, userId)
    case None => None
    case Some(i) => Some(AddressProjection(Some(users[i].addresses)))
  }

  /** `getAddresses`: always 200; the stored list, or `[]` when there is no user or no list. */
  function GetAddresses(found: Option<AddressProjection>): (r: Reply)
    ensures r.status == 200 && r.cookie == KeepCookie
    ensures found.None? || found.value.addresses.None? || found.value.addresses.value == [] ==>
      r == Reply(200, "No addresses saved yet.", KeepCookie, WithAddresses([]))
    ensures found.Some? && found.value.addresses.Some? && found.value.addresses.value != [] ==>
      r == Reply(200, "Addresses fetched successfully.", KeepCookie, WithAddresses(found.value.addresses.value))
  {
    if found.None? || found.value.addresses.None? || |found.value.addresses.value| == 0
    then Reply(200, "No addresses saved yet.", KeepCookie, WithAddresses([]))
    else Reply(200, "Addresses fetched successfully.", KeepCookie, WithAddresses(found.value.addresses.value))
  }

  /** Over the store, `getAddresses` returns exactly the stored list, `[]` for an unknown user. */
  lemma GetAddressesOfStore(users: seq<User>, userId: ObjectId)
    ensures GetAddresses(ProjectAddresses(users, userId)).body ==
      WithAddresses(if IndexOfUser(users, userId).Some? then users[IndexOfUser(users, userId).value].addresses else [])
  {
  }
}
