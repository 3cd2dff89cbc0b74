/** The hard-coded credential check and the browser storage it writes.
    Storage holds parsed records rather than JSON text: what is written
    under a key is what is read back. */
module Auth {
  import opened Common

  const UserKey: string := "user"

  /** A stored user record. `username` is `None` when the record has no
      such property; a missing or falsy `role` is "". */
  datatype StoredUser = StoredUser(username: Option<string>, role: string)

  /** `localStorage`, as a map from keys to records. */
  class LocalStorage {
    var items: map<string, StoredUser>

    constructor (initial: map<string, StoredUser>)
      ensures items == initial
    {
      items := initial;
    }

    function GetItem(key: string): Option<StoredUser>
      reads this
    {
      if key in items then Some(items[key]) else None
    }

    method SetItem(key: string, value: StoredUser)
      modifies this
      ensures items == old(items)[key := value]
    {
      items := items[key := value];
    }

    method RemoveItem(key: string)
      modifies this
      ensures items == old(items) - {key}
    {
      items := items - {key};
    }
  }

  /** The two accepted logins; the role recorded is the username itself. */
  function CheckCredentials(username: string, password: string): (r: Option<StoredUser>)
    ensures r.Some? <==> (username == "admin" && password == "admin") || (username == "user" && password == "user")
    ensures r.Some? ==> r.value == StoredUser(Some(username), username)
  {
    if username == "admin" && password == "admin" then Some(StoredUser(Some(username), "admin"))
    else if username == "user" && password == "user" then Some(StoredUser(Some(username), "user"))
    else None
  }

  /** `login`: true exactly for the accepted logins, which are stored
      under "user"; anything else leaves storage as it was. */
  method Login(storage: LocalStorage, username: string, password: string) returns (ok: bool)
    modifies storage
    ensures ok <==> CheckCredentials(username, password).Some?
    ensures ok ==> storage.items == old(storage.items)[UserKey := StoredUser(Some(username), username)]
    ensures !ok ==> storage.items == old(storage.items)
  {
    if username == "admin" && password == "admin" {
      var user := StoredUser(Some(username), "admin");
      storage.SetItem(UserKey, user);
      return true;
    } else if username == "user" && password == "user" {
      var user := StoredUser(Some(username), "user");
      storage.SetItem(UserKey, user);
      return true;
    }
    return false;
  }

  /** `logout`: only the "user" key goes. */
  method Logout(storage: LocalStorage)
    modifies storage
    ensures storage.items == old(storage.items) - {UserKey}
    ensures UserKey !in storage.items
    ensures forall k :: k != UserKey ==> (k in storage.items <==> k in old(storage.items))
  {
    storage.RemoveItem(UserKey);
  }

  /** Logging out twice is logging out once. */
  lemma LogoutIsIdempotent(items: map<string, StoredUser>)
    ensures (items - {UserKey}) - {UserKey} == items - {UserKey}
  {
  }

  /** Any other password, even for a known name, is refused. */
  lemma WrongPasswordRefused(username: string, password: string)
    requires password != username
    ensures CheckCredentials(username, password).None?
  {
  }
}
