/** `ApplicationUser`: the identity record, its derived properties, and the
    user-store lookups (`FindByIdAsync`, `FindByNameAsync`, `FindByEmailAsync`). */
module Users {
  import opened Wrappers
  import opened Seqs
  import opened Strings

  /** The fields of an identity user that the services read or write.
      Times are in ticks; `passwordHash` stands for `PasswordHash`
      (`HasPasswordAsync` is `passwordHash.Some?`). */
  datatype ApplicationUser = ApplicationUser(
    id: string,
    userName: Option<string>,
    email: Option<string>,
    emailConfirmed: bool,
    passwordHash: Option<string>,
    firstName: Option<string>,
    lastName: Option<string>,
    dateOfBirth: Option<int>,
    phoneNumber: Option<string>,
    isAccountConfigured: bool,
    emailVerifiedAt: Option<int>,
    twoFactorEnabled: bool,
    authenticatorKey: Option<string>,
    authenticatorUri: Option<string>,
    recoveryCodes: Option<seq<string>>,
    twoFactorEnabledAt: Option<int>,
    isDeleted: bool,
    isActive: bool,
    createdAt: int,
    updatedAt: Option<int>,
    lockoutEnabled: bool,
    lockoutEnd: Option<int>)

  /** A user as `new ApplicationUser { ... }` leaves it: field initialisers
      plus the properties the caller sets. */
  function NewUser(id: string, userName: string, email: string, lockoutEnabled: bool, now: int): (u: ApplicationUser)
    ensures !u.isAccountConfigured && !u.isDeleted && u.isActive
    ensures !u.emailConfirmed && u.passwordHash.None? && !u.twoFactorEnabled
    ensures u.id == id && u.userName == Some(userName) && u.email == Some(email)
  {
    ApplicationUser(
      id, Some(userName), Some(email), false, None, None, None, None, None, false, None,
      false, None, None, None, None, false, true, now, None, lockoutEnabled, None)
  }

  /** The non-blank names among `FirstName` and `LastName`, in that order. */
  function NonBlankNames(names: seq<Option<string>>): (r: seq<string>)
  {
    if names == [] then []
    else if IsNullOrWhiteSpace(names[0]) then NonBlankNames(names[1..])
    else [names[0].value] + NonBlankNames(names[1..])
  }

  /** `FullName`: the non-blank names joined by one space. */
  function FullName(u: ApplicationUser): (r: string)
    ensures IsNullOrWhiteSpace(u.firstName) && IsNullOrWhiteSpace(u.lastName) ==> r == ""
    ensures !IsNullOrWhiteSpace(u.firstName) && IsNullOrWhiteSpace(u.lastName) ==> r == u.firstName.value
    ensures IsNullOrWhiteSpace(u.firstName) && !IsNullOrWhiteSpace(u.lastName) ==> r == u.lastName.value
    ensures !IsNullOrWhiteSpace(u.firstName) && !IsNullOrWhiteSpace(u.lastName)
      ==> r == u.firstName.value + " " + u.lastName.value
  {
    var names := [u.firstName, u.lastName];
    var last := NonBlankNames([u.lastName]);
    assert last == (if IsNullOrWhiteSpace(u.lastName) then [] else [u.lastName.value]) by {
      assert [u.lastName][1..] == [];
      assert NonBlankNames([u.lastName][1..]) == [];
    }
    assert names[1..] == [u.lastName];
    var both := NonBlankNames(names);
    assert both == (if IsNullOrWhiteSpace(u.firstName) then last else [u.firstName.value] + last);
    assert |both| == 2 ==> both[1..] == last && Join(both, ' ') == both[0] + " " + last[0];
    Join(both, ' ')
  }

  /** `IsAuthenticatorConfigured`: two-factor is on and the stored key has a
      character other than white space. */
  predicate IsAuthenticatorConfigured(u: ApplicationUser)
    ensures IsAuthenticatorConfigured(u) <==>
      && u.twoFactorEnabled && u.authenticatorKey.Some?
      && exists i :: 0 <= i < |u.authenticatorKey.value| && !IsWhiteSpace(u.authenticatorKey.value[i])
  {
    u.twoFactorEnabled && !IsNullOrWhiteSpace(u.authenticatorKey)
  }

  /** `IsLockedOut` at time `now`: never while lockout is disabled or no end
      is set, and otherwise exactly until the end passes. */
  predicate IsLockedOut(u: ApplicationUser, now: int)
    ensures !u.lockoutEnabled || u.lockoutEnd.None? ==> !IsLockedOut(u, now)
    ensures u.lockoutEnabled && u.lockoutEnd.Some? ==> (IsLockedOut(u, now) <==> now < u.lockoutEnd.value)
  {
    u.lockoutEnabled && u.lockoutEnd.Some? && u.lockoutEnd.value > now
  }

  /** A lockout only runs out: a user locked out at `later` was locked out at
      every earlier instant, and a user free at `earlier` stays free. */
  lemma LockoutOnlyExpires(u: ApplicationUser, earlier: int, later: int)
    requires earlier <= later
    ensures IsLockedOut(u, later) ==> IsLockedOut(u, earlier)
    ensures !IsLockedOut(u, earlier) ==> !IsLockedOut(u, later)
  {
  }

  /** `FindByIdAsync`. */
  function FindById(users: seq<ApplicationUser>, id: string): (r: Option<nat>)
    ensures r.Some? ==> r.value < |users| && users[r.value].id == id
    ensures r.Some? ==> forall j :: 0 <= j < r.value ==> users[j].id != id
    ensures r.None? <==> forall j :: 0 <= j < |users| ==> users[j].id != id
  {
    FirstIndexOf(users, (u: ApplicationUser) => u.id == id)
  }

  /** The user store compares normalised (upper-cased) names and emails. */
  predicate NameMatches(u: ApplicationUser, name: string) {
    u.userName.Some? && EqualsIgnoreCase(u.userName.value, name)
  }

  predicate EmailMatches(u: ApplicationUser, email: string) {
    u.email.Some? && EqualsIgnoreCase(u.email.value, email)
  }

  /** `FindByNameAsync`. */
  function FindByName(users: seq<ApplicationUser>, name: string): (r: Option<nat>)
    ensures r.Some? ==> r.value < |users| && NameMatches(users[r.value], name)
    ensures r.Some? ==> forall j :: 0 <= j < r.value ==> !NameMatches(users[j], name)
    ensures r.None? <==> forall j :: 0 <= j < |users| ==> !NameMatches(users[j], name)
  {
    FirstIndexOf(users, (u: ApplicationUser) => NameMatches(u, name))
  }

  /** `FindByEmailAsync`. */
  function FindByEmail(users: seq<ApplicationUser>, email: string): (r: Option<nat>)
    ensures r.Some? ==> r.value < |users| && EmailMatches(users[r.value], email)
    ensures r.Some? ==> forall j :: 0 <= j < r.value ==> !EmailMatches(users[j], email)
    ensures r.None? <==> forall j :: 0 <= j < |users| ==> !EmailMatches(users[j], email)
  {
    FirstIndexOf(users, (u: ApplicationUser) => EmailMatches(u, email))
  }

  /** `FindByNameAsync(x) ?? FindByEmailAsync(x)`. */
  function FindByNameOrEmail(users: seq<ApplicationUser>, identifier: string): (r: Option<nat>)
    ensures r.Some? ==> r.value < |users|
    ensures r.None? <==> FindByName(users, identifier).None? && FindByEmail(users, identifier).None?
    ensures FindByName(users, identifier).Some? ==> r == FindByName(users, identifier)
    ensures FindByName(users, identifier).None? ==> r == FindByEmail(users, identifier)
  {
    match FindByName(users, identifier)
    case Some(i) => Some(i)
    case None => FindByEmail(users, identifier)
  }

  /** Two tables whose rows agree on id, user name and email, position by position. */
  predicate SameKeys(users: seq<ApplicationUser>, other: seq<ApplicationUser>) {
    |users| == |other| &&
    forall k :: 0 <= k < |users| ==>
      users[k].id == other[k].id && users[k].userName == other[k].userName && users[k].email == other[k].email
  }

  /** Lookups read only the keys, so tables with the same keys answer alike. */
  lemma LookupsReadOnlyKeys(users: seq<ApplicationUser>, other: seq<ApplicationUser>, key: string)
    requires SameKeys(users, other)
    ensures FindById(users, key) == FindById(other, key)
    ensures FindByName(users, key) == FindByName(other, key)
    ensures FindByEmail(users, key) == FindByEmail(other, key)
    ensures FindByNameOrEmail(users, key) == FindByNameOrEmail(other, key)
  {
    IdLookupReadsKeys(users, other, key);
    NameLookupReadsKeys(users, other, key);
    EmailLookupReadsKeys(users, other, key);
  }

  lemma IdLookupReadsKeys(users: seq<ApplicationUser>, other: seq<ApplicationUser>, key: string)
    requires SameKeys(users, other)
    ensures FindById(users, key) == FindById(other, key)
  {
    var a, b := FindById(users, key), FindById(other, key);
    if a.Some? && b.Some? {
      assert !(a.value < b.value) && !(b.value < a.value);
    }
  }

  lemma NameLookupReadsKeys(users: seq<ApplicationUser>, other: seq<ApplicationUser>, key: string)
    requires SameKeys(users, other)
    ensures FindByName(users, key) == FindByName(other, key)
  {
    assert forall k :: 0 <= k < |users| ==> NameMatches(users[k], key) == NameMatches(other[k], key);
    var a, b := FindByName(users, key), FindByName(other, key);
    if a.Some? && b.Some? {
      assert !(a.value < b.value) && !(b.value < a.value);
    }
  }

  lemma EmailLookupReadsKeys(users: seq<ApplicationUser>, other: seq<ApplicationUser>, key: string)
    requires SameKeys(users, other)
    ensures FindByEmail(users, key) == FindByEmail(other, key)
  {
    assert forall k :: 0 <= k < |users| ==> EmailMatches(users[k], key) == EmailMatches(other[k], key);
    var a, b := FindByEmail(users, key), FindByEmail(other, key);
    if a.Some? && b.Some? {
      assert !(a.value < b.value) && !(b.value < a.value);
    }
  }

  /** The users table behind `UserManager<ApplicationUser>`, shared by the
      account and authentication services. */
  class UserStore {
    var users: seq<ApplicationUser>

    constructor (users: seq<ApplicationUser>)
      ensures this.users == users
    {
      this.users := users;
    }
  }
}
