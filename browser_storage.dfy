/** The browser's `localStorage`, one slot per key the application uses. A slot holds the parsed
    JSON value that was last written under that key, or `None` when the key is absent. */
module BrowserStorage {
  import opened Wrappers
  import opened Types

  class Storage {
    /** `users`: the mock registry, passwords included. */
    var users: Option<seq<StoredUser>>
    /** `currentUser`: the signed-in user without password. */
    var currentUser: Option<PublicUser>
    /** `access_token`: the bearer token. */
    var accessToken: Option<string>
    /** `contacts`: the last contact list the data store wrote. */
    var contacts: Option<seq<Contact>>

    constructor(users: Option<seq<StoredUser>>, currentUser: Option<PublicUser>,
                accessToken: Option<string>, contacts: Option<seq<Contact>>)
      ensures this.users == users && this.currentUser == currentUser
      ensures this.accessToken == accessToken && this.contacts == contacts
    {
      this.users := users;
      this.currentUser := currentUser;
      this.accessToken := accessToken;
      this.contacts := contacts;
    }
  }

  /** `JSON.parse(localStorage.getItem('users') || '[]')` */
  function UsersOrEmpty(slot: Option<seq<StoredUser>>): (us: seq<StoredUser>)
    ensures slot.None? ==> us == []
    ensures slot.Some? ==> us == slot.value
  {
    if slot.Some? then slot.value else []
  }
}
