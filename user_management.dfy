/** The user-management screen: a local list of users with a create/edit
    form. Nothing is sent anywhere; the list lives in the screen's state. */
module UserManagement {
  import opened Common

  datatype Role = Admin | Editor

  datatype User = User(id: int, username: string, email: string, role: Role)

  datatype Tab = List | Create

  function Id(u: User): int { u.id }

  /** The two users the screen starts with. */
  const InitialUsers: seq<User> := [
    User(1, "admin", "admin@example.com", Admin),
    User(2, "editor", "editor@example.com", Editor)]

  /** The submit guard: a username and an e-mail are required, and a
      password too unless an existing user is being edited. */
  predicate CanSubmit(username: string, email: string, password: string, editingUser: Option<User>)
  {
    username != "" && email != "" && (editingUser.Some? || password != "")
  }

  /** Creating: the new user goes at the end with the next id by count. */
  function CreateUser(users: seq<User>, username: string, email: string, role: Role): (r: seq<User>)
    ensures |r| == |users| + 1 && r[..|users|] == users
    ensures Last(r) == User(|users| + 1, username, email, role)
  {
    users + [User(|users| + 1, username, email, role)]
  }

  /** Editing: every user carrying the edited user's id becomes the edited
      record with the new fields. */
  function EditUsers(users: seq<User>, edited: User): (r: seq<User>)
    ensures |r| == |users|
    ensures forall i :: 0 <= i < |r| ==> (if users[i].id == edited.id then r[i] == edited else r[i] == users[i])
  {
    seq(|users|, i requires 0 <= i < |users| => if users[i].id == edited.id then edited else users[i])
  }

  /** Deleting: every user with that id is dropped. */
  function DeleteUsers(users: seq<User>, id: int): seq<User>
  {
    Filter(users, (u: User) => u.id != id)
  }

  /** The list after a successful submit. */
  function Submitted(users: seq<User>, editingUser: Option<User>, username: string, email: string, role: Role): seq<User>
  {
    if editingUser.Some? then
      EditUsers(users, editingUser.value.(username := username, email := email, role := role))
    else CreateUser(users, username, email, role)
  }

  /** An edit keeps every id in its place, and only users with the edited
      id change. */
  lemma EditKeepsIds(users: seq<User>, edited: User, i: int)
    requires 0 <= i < |users|
    ensures EditUsers(users, edited)[i].id == users[i].id
    ensures EditUsers(users, edited)[i] != users[i] ==> users[i].id == edited.id
  {
  }

  /** Submitting the same edit twice changes nothing more. */
  lemma EditIsIdempotent(users: seq<User>, edited: User)
    ensures EditUsers(EditUsers(users, edited), edited) == EditUsers(users, edited)
  {
  }

  /** After a delete no user has that id; every other user stays, in order. */
  lemma DeleteRemovesId(users: seq<User>, id: int, u: User)
    ensures u in DeleteUsers(users, id) <==> u in users && u.id != id
    ensures IsSubsequence(DeleteUsers(users, id), users)
    ensures |DeleteUsers(users, id)| == |users| - CountEq(users, Id, id)
  {
    FilterMembership(users, (x: User) => x.id != id, u);
    FilterIsSubsequence(users, (x: User) => x.id != id);
    DeleteLength(users, id);
  }

  lemma {:induction false} DeleteLength(users: seq<User>, id: int)
    ensures |DeleteUsers(users, id)| == |users| - CountEq(users, Id, id)
    decreases |users|
  {
    if |users| > 0 {
      DeleteLength(AllButLast(users), id);
    }
  }

  /** Ids are derived from the length, not from the ids in use: deleting
      "admin" and then creating a user gives the new user id 2, which
      "editor" already has. */
  lemma IdCollisionAfterDelete(username: string, email: string, role: Role)
    ensures var r := CreateUser(DeleteUsers(InitialUsers, 1), username, email, role);
      |r| == 2 && r[0].id == r[1].id == 2 && r[0].username == "editor"
  {
    var p := (u: User) => u.id != 1;
    assert AllButLast(InitialUsers) == [InitialUsers[0]];
    assert Filter([InitialUsers[0]], p) == [];
    assert DeleteUsers(InitialUsers, 1) == [InitialUsers[1]];
  }

  class UserManagementScreen {
    var users: seq<User>
    var currentTab: Tab
    var editingUser: Option<User>
    var newUsername: string
    var newUserEmail: string
    var newUserPassword: string
    var newUserRole: Role

    constructor ()
      ensures users == InitialUsers && currentTab == List && editingUser == None
      ensures newUsername == "" && newUserEmail == "" && newUserPassword == "" && newUserRole == Editor
    {
      users := InitialUsers;
      currentTab := List;
      editingUser := None;
      newUsername, newUserEmail, newUserPassword := "", "", "";
      newUserRole := Editor;
    }

    /** `resetForm`: no user being edited, empty fields, role "Editor". */
    method ResetForm()
      modifies this
      ensures editingUser == None && newUsername == "" && newUserEmail == "" && newUserPassword == ""
      ensures newUserRole == Editor
      ensures users == old(users) && currentTab == old(currentTab)
    {
      editingUser := None;
      newUsername := "";
      newUserEmail := "";
      newUserPassword := "";
      newUserRole := Editor;
    }

    /** `handleCreateUser`, the form's submit for both creating and editing. */
    method HandleCreateUser()
      modifies this
      ensures !CanSubmit(old(newUsername), old(newUserEmail), old(newUserPassword), old(editingUser)) ==>
        users == old(users) && currentTab == old(currentTab) && editingUser == old(editingUser)
        && newUsername == old(newUsername) && newUserEmail == old(newUserEmail)
        && newUserPassword == old(newUserPassword) && newUserRole == old(newUserRole)
      ensures CanSubmit(old(newUsername), old(newUserEmail), old(newUserPassword), old(editingUser)) ==>
        users == Submitted(old(users), old(editingUser), old(newUsername), old(newUserEmail), old(newUserRole))
        && currentTab == List && editingUser == None
        && newUsername == "" && newUserEmail == "" && newUserPassword == "" && newUserRole == Editor
    {
      if newUsername == "" || newUserEmail == "" || (editingUser.None? && newUserPassword == "") {
        return;
      }
      var newUser: User;
      if editingUser.Some? {
        newUser := editingUser.value.(username := newUsername, email := newUserEmail, role := newUserRole);
      } else {
        newUser := User(|users| + 1, newUsername, newUserEmail, newUserRole);
      }
      if editingUser.Some? {
        // newUser keeps the edited user's id, which selects the users to replace
        users := EditUsers(users, newUser);
      } else {
        users := users + [newUser];
      }
      ResetForm();
      currentTab := List;
    }

    /** `handleEditUser`: loads the user into the form, leaving the
      password field as it was, and shows the form. */
    method HandleEditUser(user: User)
      modifies this
      ensures editingUser == Some(user)
      ensures newUsername == user.username && newUserEmail == user.email && newUserRole == user.role
      ensures newUserPassword == old(newUserPassword) && users == old(users)
      ensures currentTab == Create
    {
      editingUser := Some(user);
      newUsername := user.username;
      newUserEmail := user.email;
      newUserRole := user.role;
      currentTab := Create;
    }

    /** `handleDeleteUser`: only the list changes. */
    method HandleDeleteUser(id: int)
      modifies this
      ensures users == DeleteUsers(old(users), id)
      ensures currentTab == old(currentTab) && editingUser == old(editingUser)
      ensures newUsername == old(newUsername) && newUserEmail == old(newUserEmail)
      ensures newUserPassword == old(newUserPassword) && newUserRole == old(newUserRole)
    {
      users := DeleteUsers(users, id);
    }

    /** The "Listar Usuarios" tab: back to the list with a clean form. */
    method ShowList()
      modifies this
      ensures currentTab == List && editingUser == None && users == old(users)
      ensures newUsername == "" && newUserEmail == "" && newUserPassword == "" && newUserRole == Editor
    {
      currentTab := List;
      ResetForm();
    }

    /** The second tab: shows the form, keeping whatever it holds. */
    method ShowForm()
      modifies this
      ensures currentTab == Create && users == old(users) && editingUser == old(editingUser)
      ensures newUsername == old(newUsername) && newUserEmail == old(newUserEmail)
      ensures newUserPassword == old(newUserPassword) && newUserRole == old(newUserRole)
    {
      currentTab := Create;
    }
  }
}
