/** The mock authentication provider: a user registry kept in the browser's storage, seeded with a
    default administrator, a current user mirrored in storage, and login, register and logout.
    `now` stands for `new Date().toISOString()` and `newId` for `Date.now().toString()`. */
module AuthContext {
  import opened Wrappers
  import opened Seqs
  import opened Types
  import opened BrowserStorage

  const DefaultAdminId := "admin-default"

  function DefaultAdmin(now: string): (u: StoredUser)
    ensures u.id == DefaultAdminId && u.role == "admin" && u.hasAccess
    ensures u.email == "admin" && u.password == "admin" && u.name == "Administrator" && u.createdAt == now
  {
    StoredUser(DefaultAdminId, "admin", "admin", "Administrator", "admin", true, now)
  }

  /** `u => u.email === email && u.password === password` */
  function Credentials(email: string, password: string): StoredUser -> bool {
    (u: StoredUser) => u.email == email && u.password == password
  }

  predicate Matches(u: StoredUser, email: string, password: string) {
    u.email == email && u.password == password
  }

  /** `users.find(...)`: the first user whose email and password both match exactly. */
  function FindUser(users: seq<StoredUser>, email: string, password: string): (r: Option<StoredUser>)
    ensures r.Some? <==> exists i :: 0 <= i < |users| && Matches(users[i], email, password)
    ensures r.Some? ==> exists i :: 0 <= i < |users| && users[i] == r.value && Matches(users[i], email, password) &&
                                    forall j :: 0 <= j < i ==> !Matches(users[j], email, password)
  {
    Find(users, Credentials(email, password))
  }

  /** `users.some(u => u.email === email)` */
  predicate EmailTaken(users: seq<StoredUser>, email: string) {
    exists i :: 0 <= i < |users| && users[i].email == email
  }

  function NewUser(id: string, email: string, password: string, name: string, now: string): (u: StoredUser)
    ensures u.role == "user" && !u.hasAccess
    ensures u.id == id && u.email == email && u.password == password && u.name == name && u.createdAt == now
  {
    StoredUser(id, email, password, name, "user", false, now)
  }

  predicate UniqueEmails(users: seq<StoredUser>) {
    forall i, j :: 0 <= i < j < |users| ==> users[i].email != users[j].email
  }

  /** Registering only an email nobody has keeps the emails unique. */
  lemma RegisterKeepsEmailsUnique(users: seq<StoredUser>, u: StoredUser)
    requires UniqueEmails(users) && !EmailTaken(users, u.email)
    ensures UniqueEmails(users + [u])
  {
    var r := users + [u];
    forall i, j | 0 <= i < j < |r| ensures r[i].email != r[j].email {
      assert r[i] == users[i];
      if j < |users| {
        assert r[j] == users[j];
      }
    }
  }

  /** A freshly registered user can log in at once with the same credentials, although it has not
      been granted access: login does not look at `hasAccess`. */
  lemma RegisterThenLogin(users: seq<StoredUser>, id: string, email: string, password: string, name: string, now: string)
    requires !EmailTaken(users, email)
    ensures FindUser(users + [NewUser(id, email, password, name, now)], email, password) ==
              Some(NewUser(id, email, password, name, now))
    ensures !NewUser(id, email, password, name, now).hasAccess
  {
    var u := NewUser(id, email, password, name, now);
    var r := users + [u];
    assert Matches(r[|users|], email, password);
    var found := FindUser(r, email, password);
    var i :| 0 <= i < |r| && r[i] == found.value && Matches(r[i], email, password) &&
             forall j :: 0 <= j < i ==> !Matches(r[j], email, password);
  }

  /** With unique emails, the logged-in user is the one holding that email. */
  lemma LoginByUniqueEmail(users: seq<StoredUser>, k: nat, password: string)
    requires UniqueEmails(users) && k < |users| && users[k].password == password
    ensures FindUser(users, users[k].email, password) == Some(users[k])
  {
    var email := users[k].email;
    assert Matches(users[k], email, password);
    var found := FindUser(users, email, password);
    var i :| 0 <= i < |users| && users[i] == found.value && Matches(users[i], email, password) &&
             forall j :: 0 <= j < i ==> !Matches(users[j], email, password);
  }

  /** The seeded registry lets `admin`/`admin` sign in as the administrator. */
  lemma DefaultAdminCanLogin(now: string)
    ensures FindUser([DefaultAdmin(now)], "admin", "admin") == Some(DefaultAdmin(now))
    ensures UniqueEmails([DefaultAdmin(now)])
  {
    assert Matches([DefaultAdmin(now)][0], "admin", "admin");
  }

  class AuthProvider {
    var user: Option<PublicUser>
    const storage: Storage

    constructor(storage: Storage)
      ensures user.None? && this.storage == storage
    {
      user := None;
      this.storage := storage;
    }

    /** `isAuthenticated: !!user` */
    predicate IsAuthenticated()
      reads this
    {
      user.Some?
    }

    /** The mount effect: seed the administrator into an empty registry, then restore the saved
        session if there is one. */
    method Initialize(now: string)
      modifies this, storage
      ensures UsersOrEmpty(old(storage.users)) == [] ==> storage.users == Some([DefaultAdmin(now)])
      ensures UsersOrEmpty(old(storage.users)) != [] ==> storage.users == old(storage.users)
      ensures old(storage.currentUser).Some? ==> user == old(storage.currentUser)
      ensures old(storage.currentUser).None? ==> user == old(user)
      ensures storage.currentUser == old(storage.currentUser)
      ensures storage.accessToken == old(storage.accessToken) && storage.contacts == old(storage.contacts)
    {
      var users := UsersOrEmpty(storage.users);
      if |users| == 0 {
        storage.users := Some([DefaultAdmin(now)]);
      }
      if storage.currentUser.Some? {
        user := storage.currentUser;
      }
    }

    /** Success exactly when some stored user has both the email and the password; the first such
        user, without password, becomes the current user and is saved. */
    method Login(email: string, password: string) returns (ok: bool)
      modifies this, storage
      ensures var users := UsersOrEmpty(storage.users);
        ok <==> exists i :: 0 <= i < |users| && Matches(users[i], email, password)
      ensures ok ==> user == Some(WithoutPassword(FindUser(UsersOrEmpty(storage.users), email, password).value))
      ensures ok ==> storage.currentUser == user
      ensures !ok ==> user == old(user) && storage.currentUser == old(storage.currentUser)
      ensures ok ==> IsAuthenticated()
      ensures storage.users == old(storage.users)
      ensures storage.accessToken == old(storage.accessToken) && storage.contacts == old(storage.contacts)
    {
      var found := FindUser(UsersOrEmpty(storage.users), email, password);
      if found.Some? {
        var withoutPassword := WithoutPassword(found.value);
        user := Some(withoutPassword);
        storage.currentUser := Some(withoutPassword);
        return true;
      }
      return false;
    }

    /** Refused, with nothing changed, when the email is taken; otherwise one new user with role
        `user` and no access is appended. Registering does not sign the user in. */
    method Register(email: string, password: string, name: string, newId: string, now: string)
      returns (ok: bool)
      modifies storage
      ensures ok <==> !EmailTaken(UsersOrEmpty(old(storage.users)), email)
      ensures !ok ==> storage.users == old(storage.users)
      ensures ok ==> storage.users == Some(UsersOrEmpty(old(storage.users)) + [NewUser(newId, email, password, name, now)])
      ensures UniqueEmails(UsersOrEmpty(old(storage.users))) ==> UniqueEmails(UsersOrEmpty(storage.users))
      ensures storage.currentUser == old(storage.currentUser)
      ensures storage.accessToken == old(storage.accessToken) && storage.contacts == old(storage.contacts)
    {
      var users := UsersOrEmpty(storage.users);
      if EmailTaken(users, email) {
        return false;
      }
      var created := NewUser(newId, email, password, name, now);
      if UniqueEmails(users) {
        RegisterKeepsEmailsUnique(users, created);
      }
      storage.users := Some(users + [created]);
      return true;
    }

    method Logout()
      modifies this, storage
      ensures user.None? && !IsAuthenticated()
      ensures storage.currentUser.None?
      ensures storage.users == old(storage.users)
      ensures storage.accessToken == old(storage.accessToken) && storage.contacts == old(storage.contacts)
    {
      user := None;
      storage.currentUser := None;
    }
  }
}
