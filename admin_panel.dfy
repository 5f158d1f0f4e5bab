/** The administrator's user table: it shows the stored registry without passwords and lets the
    administrator flip a user's access or role, writing the whole registry back each time. */
module AdminPanel {
  import opened Wrappers
  import opened Seqs
  import opened Types
  import opened BrowserStorage
  import opened AuthContext

  function FlipAccessIf(userId: string): StoredUser -> StoredUser {
    (u: StoredUser) => if u.id == userId then u.(hasAccess := !u.hasAccess) else u
  }

  /** `toggleAccess`'s map: only users with the id change, and only in `hasAccess`. */
  function ToggleAccessOf(users: seq<StoredUser>, userId: string): (r: seq<StoredUser>)
    ensures |r| == |users|
    ensures forall i :: 0 <= i < |users| ==> r[i].(hasAccess := users[i].hasAccess) == users[i]
    ensures forall i :: 0 <= i < |users| ==> (r[i].hasAccess != users[i].hasAccess <==> users[i].id == userId)
  {
    Map(users, FlipAccessIf(userId))
  }

  /** `'admin'` becomes `'user'`; every other role becomes `'admin'`. */
  function FlipRole(role: string): (r: string)
    ensures r == "admin" || r == "user"
    ensures r == "user" <==> role == "admin"
  {
    if role == "admin" then "user" else "admin"
  }

  function FlipRoleIf(userId: string): StoredUser -> StoredUser {
    (u: StoredUser) => if u.id == userId then u.(role := FlipRole(u.role)) else u
  }

  /** `toggleRole`'s map: only users with the id change, and only in `role`. */
  function ToggleRoleOf(users: seq<StoredUser>, userId: string): (r: seq<StoredUser>)
    ensures |r| == |users|
    ensures forall i :: 0 <= i < |users| ==> r[i].(role := users[i].role) == users[i]
    ensures forall i :: 0 <= i < |users| && users[i].id == userId ==> r[i].role == FlipRole(users[i].role)
    ensures forall i :: 0 <= i < |users| && users[i].id != userId ==> r[i] == users[i]
  {
    Map(users, FlipRoleIf(userId))
  }

  /** Flipping access twice restores the registry. */
  lemma ToggleAccessTwice(users: seq<StoredUser>, userId: string)
    ensures ToggleAccessOf(ToggleAccessOf(users, userId), userId) == users
  {
    var twice := ToggleAccessOf(ToggleAccessOf(users, userId), userId);
    forall i | 0 <= i < |users| ensures twice[i] == users[i] {
      var once := ToggleAccessOf(users, userId);
      assert once[i].id == users[i].id by {
        assert once[i].(hasAccess := users[i].hasAccess) == users[i];
      }
    }
  }

  /** Flipping the role twice restores the registry when the affected users are admins or users. */
  lemma ToggleRoleTwice(users: seq<StoredUser>, userId: string)
    requires forall i :: 0 <= i < |users| && users[i].id == userId ==> users[i].role in {"admin", "user"}
    ensures ToggleRoleOf(ToggleRoleOf(users, userId), userId) == users
  {
    var once := ToggleRoleOf(users, userId);
    var twice := ToggleRoleOf(once, userId);
    forall i | 0 <= i < |users| ensures twice[i] == users[i] {
      assert once[i].id == users[i].id by {
        assert once[i].(role := users[i].role) == users[i];
      }
    }
  }

  /** Any other role is lost: the first flip makes it `'admin'`, the second `'user'`. */
  lemma ToggleRoleTwiceOtherRole(u: StoredUser)
    requires u.role == "guest"
    ensures ToggleRoleOf(ToggleRoleOf([u], u.id), u.id) == [u.(role := "user")]
  {
    assert u.role != "admin";
    var once := ToggleRoleOf([u], u.id);
    assert once[0].role == "admin";
  }

  /** Two registries of the same length whose users have, position by position, the same email and
      password: the same credentials sign in, and emails are unique in both or in neither. */
  lemma SameCredentials(before: seq<StoredUser>, after: seq<StoredUser>, email: string, password: string)
    requires |after| == |before|
    requires forall i :: 0 <= i < |before| ==> after[i].email == before[i].email && after[i].password == before[i].password
    ensures FindUser(after, email, password).Some? <==> FindUser(before, email, password).Some?
    ensures UniqueEmails(before) <==> UniqueEmails(after)
  {
    assert forall i :: 0 <= i < |before| ==> (Matches(after[i], email, password) <==> Matches(before[i], email, password));
  }

  /** Neither toggle touches emails or passwords, so the users who can sign in are the same before
      and after, and unique emails stay unique. */
  lemma ToggleAccessKeepsCredentials(users: seq<StoredUser>, userId: string, email: string, password: string)
    ensures FindUser(ToggleAccessOf(users, userId), email, password).Some? <==> FindUser(users, email, password).Some?
    ensures UniqueEmails(users) ==> UniqueEmails(ToggleAccessOf(users, userId))
  {
    var a := ToggleAccessOf(users, userId);
    forall i | 0 <= i < |users| ensures a[i].email == users[i].email && a[i].password == users[i].password {
      assert a[i].(hasAccess := users[i].hasAccess) == users[i];
    }
    SameCredentials(users, a, email, password);
  }

  lemma ToggleRoleKeepsCredentials(users: seq<StoredUser>, userId: string, email: string, password: string)
    ensures FindUser(ToggleRoleOf(users, userId), email, password).Some? <==> FindUser(users, email, password).Some?
    ensures UniqueEmails(users) ==> UniqueEmails(ToggleRoleOf(users, userId))
  {
    var r := ToggleRoleOf(users, userId);
    forall i | 0 <= i < |users| ensures r[i].email == users[i].email && r[i].password == users[i].password {
      assert r[i].(role := users[i].role) == users[i];
    }
    SameCredentials(users, r, email, password);
  }

  /** The table's rows: the registry without passwords. */
  function Project(users: seq<StoredUser>): (rows: seq<PublicUser>)
    ensures |rows| == |users|
    ensures forall i :: 0 <= i < |users| ==> rows[i] == WithoutPassword(users[i])
  {
    Map(users, WithoutPassword)
  }

  class AdminPanelState {
    var users: seq<PublicUser>
    const storage: Storage

    constructor(storage: Storage)
      ensures users == [] && this.storage == storage
    {
      users := [];
      this.storage := storage;
    }

    /** The mount effect: show the stored registry when there is one. */
    method Load()
      modifies this
      ensures storage.users.Some? ==> users == Project(storage.users.value)
      ensures storage.users.None? ==> users == old(users)
    {
      if storage.users.Some? {
        users := Project(storage.users.value);
      }
    }

    /** `toggleAccess`: write the flipped registry back and show it. */
    method ToggleAccess(userId: string)
      modifies this, storage
      ensures storage.users == Some(ToggleAccessOf(UsersOrEmpty(old(storage.users)), userId))
      ensures users == Project(storage.users.value)
      ensures storage.currentUser == old(storage.currentUser) && storage.accessToken == old(storage.accessToken)
      ensures storage.contacts == old(storage.contacts)
    {
      var updated := ToggleAccessOf(UsersOrEmpty(storage.users), userId);
      storage.users := Some(updated);
      users := Project(updated);
    }

    /** `toggleRole`: write the flipped registry back and show it. */
    method ToggleRole(userId: string)
      modifies this, storage
      ensures storage.users == Some(ToggleRoleOf(UsersOrEmpty(old(storage.users)), userId))
      ensures users == Project(storage.users.value)
      ensures storage.currentUser == old(storage.currentUser) && storage.accessToken == old(storage.accessToken)
      ensures storage.contacts == old(storage.contacts)
    {
      var updated := ToggleRoleOf(UsersOrEmpty(storage.users), userId);
      storage.users := Some(updated);
      users := Project(updated);
    }
  }
}
