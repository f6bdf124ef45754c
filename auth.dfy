/** The user directory and session (`stores/auth-store.ts`): login by e-mail
    alone, registration with a duplicate-e-mail check, logout, and a shallow-merge
    profile update that also rewrites the directory entry. */
module Auth {
  import opened Wrappers
  import Seqs

  datatype Role = Client | Admin

  datatype Address = Address(street: string, city: string, postalCode: string, country: string)

  datatype User = User(
    id: string,
    email: string,
    firstName: string,
    lastName: string,
    role: Role,
    phone: Option<string>,
    address: Option<Address>,
    createdAt: string)

  /** `Omit<User, 'id' | 'createdAt'>`: what `register` is given. */
  datatype RegisterData = RegisterData(
    email: string, firstName: string, lastName: string, role: Role,
    phone: Option<string>, address: Option<Address>)

  /** `Partial<User>`: `None` is a key the partial does not have; for the optional
      fields, `Some(None)` is a key present with the value `undefined`. */
  datatype UserPatch = UserPatch(
    id: Option<string>,
    email: Option<string>,
    firstName: Option<string>,
    lastName: Option<string>,
    role: Option<Role>,
    phone: Option<Option<string>>,
    address: Option<Option<Address>>,
    createdAt: Option<string>)

  const EmptyPatch := UserPatch(None, None, None, None, None, None, None, None)

  /** `mockUsers` */
  const MockUsers: seq<User> := [
    User("1", "client@test.com", "Jean", "Dupont", Client, Some("06 12 34 56 78"),
         Some(Address("123 Rue de la Paix", "Paris", "75001", "France")), "2024-01-15T10:00:00Z"),
    User("2", "admin@test.com", "Marie", "Martin", Admin, Some("06 98 76 54 32"),
         None, "2024-01-01T08:00:00Z")
  ]

  /** No two directory entries share an e-mail. */
  ghost predicate DistinctEmails(users: seq<User>) {
    forall i, j :: 0 <= i < j < |users| ==> users[i].email != users[j].email
  }

  lemma MockUsersDistinct()
    ensures DistinctEmails(MockUsers)
  {
  }

  /** `mockUsers.find(u => u.email === email)` */
  function FindByEmail(users: seq<User>, email: string): (r: Option<User>)
    ensures r.None? <==> forall i :: 0 <= i < |users| ==> users[i].email != email
    ensures r.Some? ==> r.value.email == email && r.value in users
    ensures r.Some? ==>
      exists i :: 0 <= i < |users| && users[i] == r.value && forall j :: 0 <= j < i ==> users[j].email != email
  {
    Seqs.Find(users, (u: User) => u.email == email)
  }

  /** With distinct e-mails, the entry with a given e-mail is the one found. */
  lemma FindByEmailUnique(users: seq<User>, i: nat)
    requires DistinctEmails(users) && i < |users|
    ensures FindByEmail(users, users[i].email) == Some(users[i])
  {
    var p := (u: User) => u.email == users[i].email;
    Seqs.FirstIndex(users, p, i);
  }

  /** The seeded client account can log in. */
  lemma SeedClientFound()
    ensures FindByEmail(MockUsers, "client@test.com") == Some(MockUsers[0])
  {
    MockUsersDistinct();
    FindByEmailUnique(MockUsers, 0);
  }

  /** `{ ...userData, id: Date.now().toString(), createdAt: new Date().toISOString() }` */
  function NewUser(d: RegisterData, id: string, createdAt: string): User {
    User(id, d.email, d.firstName, d.lastName, d.role, d.phone, d.address, createdAt)
  }

  /** `{ ...user, ...userData }`: every key the partial has wins, the rest stay. */
  function Merge(u: User, p: UserPatch): (r: User)
    ensures p.address.Some? ==> r.address == p.address.value
    ensures p.address.None? ==> r.address == u.address
  {
    User(p.id.GetOr(u.id), p.email.GetOr(u.email), p.firstName.GetOr(u.firstName),
         p.lastName.GetOr(u.lastName), p.role.GetOr(u.role), p.phone.GetOr(u.phone),
         p.address.GetOr(u.address), p.createdAt.GetOr(u.createdAt))
  }

  lemma MergeEmpty(u: User)
    ensures Merge(u, EmptyPatch) == u
  {
  }

  lemma MergeTwice(u: User, p: UserPatch)
    ensures Merge(Merge(u, p), p) == Merge(u, p)
  {
  }

  /** The merge is shallow: a partial naming an address replaces the whole address,
      so the stored street is lost even when only the city was meant to change. */
  lemma MergeReplacesAddress(u: User, a: Address)
    requires u.address.Some?
    ensures Merge(u, EmptyPatch.(address := Some(Some(a)))).address == Some(a)
  {
  }

  /** Merging the own fields of a user onto any user gives that user, except for the keys
      the partial leaves out: merging a full partial is a replacement. */
  lemma MergeFull(u: User, v: User)
    ensures Merge(u, UserPatch(Some(v.id), Some(v.email), Some(v.firstName), Some(v.lastName),
                               Some(v.role), Some(v.phone), Some(v.address), Some(v.createdAt))) == v
  {
  }

  /** `mockUsers.findIndex(u => u.id === id)` */
  function IndexOfUser(users: seq<User>, id: string): int {
    Seqs.FindIndex(users, (u: User) => u.id == id)
  }

  /** `mockUsers[userIndex] = updated` when `userIndex !== -1`. */
  function ReplaceById(users: seq<User>, id: string, updated: User): (r: seq<User>)
    ensures |r| == |users|
  {
    var k := IndexOfUser(users, id);
    if k < 0 then users else users[k := updated]
  }

  /** Only the first entry with that id is replaced; an unknown id changes nothing. */
  lemma ReplaceByIdAt(users: seq<User>, id: string, updated: User)
    ensures (forall i :: 0 <= i < |users| ==> users[i].id != id) ==> ReplaceById(users, id, updated) == users
    ensures forall i :: 0 <= i < |users| && users[i].id == id && (forall j :: 0 <= j < i ==> users[j].id != id) ==>
      ReplaceById(users, id, updated) == users[i := updated]
  {
    var p := (u: User) => u.id == id;
    forall i | 0 <= i < |users| && users[i].id == id && (forall j :: 0 <= j < i ==> users[j].id != id)
      ensures ReplaceById(users, id, updated) == users[i := updated]
    {
      Seqs.FirstIndex(users, p, i);
    }
  }

  /** Registering an e-mail that is not yet in the directory keeps e-mails distinct. */
  lemma RegisterKeepsDistinct(users: seq<User>, d: RegisterData, id: string, createdAt: string)
    requires DistinctEmails(users)
    requires FindByEmail(users, d.email).None?
    ensures DistinctEmails(users + [NewUser(d, id, createdAt)])
  {
  }

  /** An update may give the logged-in user an e-mail another entry already has:
      nothing in the update checks for it. */
  lemma UpdateCanDuplicateEmail()
    ensures !DistinctEmails(ReplaceById(MockUsers, "1",
              Merge(MockUsers[0], EmptyPatch.(email := Some("admin@test.com")))))
  {
    var updated := Merge(MockUsers[0], EmptyPatch.(email := Some("admin@test.com")));
    ReplaceByIdAt(MockUsers, "1", updated);
    var r := ReplaceById(MockUsers, "1", updated);
    assert r == [updated, MockUsers[1]];
    assert r[0].email == r[1].email;
  }

  class AuthStore {
    var isAuthenticated: bool
    var user: Option<User>
    /** The module-level `mockUsers` array the actions mutate in place. */
    var users: seq<User>

    /** The session flag agrees with the presence of a user, and that user is in
        the directory. */
    ghost predicate Valid()
      reads this
    {
      && (isAuthenticated <==> user.Some?)
      && (user.Some? ==> user.value in users)
    }

    constructor ()
      ensures Valid()
      ensures !isAuthenticated && user == None && users == MockUsers
    {
      isAuthenticated := false;
      user := None;
      users := MockUsers;
    }

    /** `login`: the password is not looked at. */
    method Login(email: string, password: string) returns (ok: bool)
      requires Valid()
      modifies this
      ensures Valid()
      ensures ok <==> FindByEmail(old(users), email).Some?
      ensures ok ==> isAuthenticated && user == FindByEmail(old(users), email)
      ensures !ok ==> isAuthenticated == old(isAuthenticated) && user == old(user)
      ensures users == old(users)
    {
      var found := FindByEmail(users, email);
      if found.Some? {
        isAuthenticated := true;
        user := found;
        ok := true;
      } else {
        ok := false;
      }
    }

    /** `register`: refused when the e-mail is already in the directory; otherwise
        the new user is appended and logged in. */
    method Register(data: RegisterData, id: string, createdAt: string) returns (ok: bool)
      requires Valid()
      modifies this
      ensures Valid()
      ensures ok <==> FindByEmail(old(users), data.email).None?
      ensures ok ==> (users == old(users) + [NewUser(data, id, createdAt)]
        && isAuthenticated && user == Some(NewUser(data, id, createdAt)))
      ensures !ok ==> users == old(users) && isAuthenticated == old(isAuthenticated) && user == old(user)
      ensures DistinctEmails(old(users)) ==> DistinctEmails(users)
    {
      var existing := FindByEmail(users, data.email);
      if existing.Some? {
        return false;
      }
      var newUser := NewUser(data, id, createdAt);
      if DistinctEmails(users) {
        RegisterKeepsDistinct(users, data, id, createdAt);
      }
      users := users + [newUser];
      isAuthenticated := true;
      user := Some(newUser);
      ok := true;
    }

    method Logout()
      requires Valid()
      modifies this
      ensures Valid()
      ensures !isAuthenticated && user == None && users == old(users)
    {
      isAuthenticated := false;
      user := None;
    }

    /** `updateUser`: nothing happens without a logged-in user; otherwise the user
        becomes the merge and the directory entry with the user's previous id is
        overwritten by it. */
    method UpdateUser(patch: UserPatch)
      requires Valid()
      modifies this
      ensures Valid()
      ensures old(user).None? ==> user == old(user) && users == old(users) && isAuthenticated == old(isAuthenticated)
      ensures old(user).Some? ==>
        && user == Some(Merge(old(user).value, patch))
        && users == ReplaceById(old(users), old(user).value.id, Merge(old(user).value, patch))
        && isAuthenticated == old(isAuthenticated)
    {
      if user.Some? {
        var current := user.value;
        var updated := Merge(current, patch);
        user := Some(updated);
        var k := IndexOfUser(users, current.id);
        assert k != -1 by {
          var i :| 0 <= i < |users| && users[i] == current;
        }
        if k != -1 {
          users := users[k := updated];
          assert users[k] == updated;
        }
      }
    }
  }
}
