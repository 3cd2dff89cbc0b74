/** The authentication context: the signed-in user, role resolution
    through the e-mail role table, session restore from storage, logout,
    and the guard on using the context outside its provider. The role
    table is a parameter; a name that is not a key of it reads as
    undefined, which is falsy like "". */
module AuthContext {
  import opened Common
  import opened Auth

  const DefaultRole: string := "viewer"
  const OutsideProvider: string := "useAuth must be used within an AuthProvider"

  /** `emailRoles[key]`, with undefined as "". */
  function RoleOf(emailRoles: map<string, string>, key: string): string
  {
    if key in emailRoles then emailRoles[key] else ""
  }

  /** The role given at login: the table's entry for the username when
      truthy, else "viewer". */
  function LoginRole(emailRoles: map<string, string>, username: string): (r: string)
    ensures r != ""
    ensures RoleOf(emailRoles, username) != "" ==> r == RoleOf(emailRoles, username)
    ensures RoleOf(emailRoles, username) == "" ==> r == DefaultRole
  {
    Or(RoleOf(emailRoles, username), DefaultRole)
  }

  /** The role given on restore: the table's entry for the stored
      username (a missing one is looked up as the key "undefined"), else
      the stored role, else "viewer". */
  function RestoredRole(emailRoles: map<string, string>, stored: StoredUser): (r: string)
    ensures r != ""
    ensures var key := if stored.username.Some? then stored.username.value else "undefined";
      r == (if RoleOf(emailRoles, key) != "" then RoleOf(emailRoles, key)
            else if stored.role != "" then stored.role
            else DefaultRole)
  {
    var key := if stored.username.Some? then stored.username.value else "undefined";
    Or(Or(RoleOf(emailRoles, key), stored.role), DefaultRole)
  }

  /** The record built on login: the API result is a boolean, whose spread
      adds no property, so the record has a role and no username. */
  function LoginRecord(emailRoles: map<string, string>, username: string): (u: StoredUser)
    ensures u.username.None? && u.role == LoginRole(emailRoles, username)
  {
    StoredUser(None, LoginRole(emailRoles, username))
  }

  /** A reload looks the role up under "undefined", as the stored record
      lost its username: the login role survives exactly when the table has
      no truthy entry for that key. */
  lemma RoleAfterReload(emailRoles: map<string, string>, username: string)
    ensures RoleOf(emailRoles, "undefined") == "" ==>
      RestoredRole(emailRoles, LoginRecord(emailRoles, username)) == LoginRole(emailRoles, username)
    ensures RoleOf(emailRoles, "undefined") != "" ==>
      RestoredRole(emailRoles, LoginRecord(emailRoles, username)) == emailRoles["undefined"]
  {
  }

  /** What `useAuth` yields. */
  datatype Result<T> = Ok(value: T) | Failure(message: string)

  /** `useAuth`: the provider's value, or the error thrown without one. */
  function UseAuth<T>(context: Option<T>): (r: Result<T>)
    ensures context.Some? <==> r.Ok?
    ensures r.Ok? ==> r.value == context.value
    ensures r.Failure? ==> r.message == OutsideProvider
  {
    if context.None? then Failure(OutsideProvider) else Ok(context.value)
  }

  class AuthProvider {
    var user: Option<StoredUser>
    var loading: bool
    /** Every path `navigate` was called with, in order. */
    var navigations: seq<string>
    const storage: LocalStorage

    /** Mounted loading, with nobody signed in yet. */
    constructor (storage: LocalStorage)
      ensures this.storage == storage
      ensures user == None && loading && navigations == []
    {
      this.storage := storage;
      user, loading, navigations := None, true, [];
    }

    /** The mount effect: a stored user is signed in again with its role
        resolved anew; without one nobody is. Loading ends either way. */
    method Restore(emailRoles: map<string, string>)
      modifies this
      ensures !loading && navigations == old(navigations)
      ensures UserKey in storage.items ==>
        user == Some(storage.items[UserKey].(role := RestoredRole(emailRoles, storage.items[UserKey])))
      ensures UserKey !in storage.items ==> user == old(user)
    {
      var storedUser := storage.GetItem(UserKey);
      if storedUser.Some? {
        var parsedUser := storedUser.value;
        var key := if parsedUser.username.Some? then parsedUser.username.value else "undefined";
        var role := Or(Or(RoleOf(emailRoles, key), parsedUser.role), DefaultRole);
        user := Some(parsedUser.(role := role));
      }
      loading := false;
    }

    /** `login`: with accepted credentials the user, the stored "user"
        record and the result are one record, its role from the table;
        otherwise it yields nothing and changes nothing. */
    method Login(username: string, password: string, emailRoles: map<string, string>) returns (r: Option<StoredUser>)
      modifies this, storage
      ensures r.Some? <==> CheckCredentials(username, password).Some?
      ensures r.Some? ==>
        && r.value == LoginRecord(emailRoles, username)
        && user == r
        && storage.items == old(storage.items)[UserKey := r.value]
      ensures r.None? ==> user == old(user) && storage.items == old(storage.items)
      ensures loading == old(loading) && navigations == old(navigations)
    {
      var result := Auth.Login(storage, username, password);
      if result {
        var role := Or(RoleOf(emailRoles, username), DefaultRole);
        var userWithRole := StoredUser(None, role);
        user := Some(userWithRole);
        storage.SetItem(UserKey, userWithRole);
        return Some(userWithRole);
      }
      return None;
    }

    /** `logout`: nobody signed in, the "user" key removed, and off to the
        login page. */
    method Logout()
      modifies this, storage
      ensures user == None && UserKey !in storage.items
      ensures storage.items == old(storage.items) - {UserKey}
      ensures navigations == old(navigations) + ["/login"]
      ensures loading == old(loading)
    {
      user := None;
      storage.RemoveItem(UserKey);
      navigations := navigations + ["/login"];
    }
  }
}
