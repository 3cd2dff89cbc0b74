/** The dashboard shell: the role-filtered side menu, the role-gated
    routes, the menu click handler and the `classNames` helper. The
    signed-in user is reduced to its role: `None` when nobody is signed
    in. */
module Dashboard {
  import opened Common

  datatype NavItem = NavItem(name: string, href: string, roles: seq<string>)

  const DashboardItem: NavItem := NavItem("Dashboard", "/dashboard", ["admin", "editor", "viewer"])
  const UsuariosItem: NavItem := NavItem("Usuarios", "/dashboard/users", ["admin"])
  const InformesItem: NavItem := NavItem("Informes", "/dashboard/informes", ["admin"])
  const LogOutItem: NavItem := NavItem("LogOut", "#", ["admin", "editor", "viewer"])

  const NavigationBase: seq<NavItem> := [DashboardItem, UsuariosItem, InformesItem, LogOutItem]

  function Allows(role: Option<string>): NavItem -> bool
  {
    (item: NavItem) => role.Some? && role.value in item.roles
  }

  /** `navigation`: the base items whose roles include the user's role. */
  function Navigation(role: Option<string>): seq<NavItem>
  {
    Filter(NavigationBase, Allows(role))
  }

  /** An item is in the menu exactly when it is a base item listing the
      role, and the menu keeps the base order. */
  lemma NavigationMembership(role: Option<string>, item: NavItem)
    ensures item in Navigation(role) <==> item in NavigationBase && role.Some? && role.value in item.roles
    ensures IsSubsequence(Navigation(role), NavigationBase)
  {
    FilterMembership(NavigationBase, Allows(role), item);
    FilterIsSubsequence(NavigationBase, Allows(role));
  }

  /** The menu of each role: everything for "admin"; "Dashboard" and
      "LogOut" for "editor" and "viewer"; nothing without a user or with
      any other role. */
  lemma NavigationByRole(role: Option<string>)
    ensures role == Some("admin") ==> Navigation(role) == NavigationBase
    ensures role == Some("editor") || role == Some("viewer") ==> Navigation(role) == [DashboardItem, LogOutItem]
    ensures role.None? || role.value !in ["admin", "editor", "viewer"] ==> Navigation(role) == []
  {
    var p := Allows(role);
    var one, two, three := [DashboardItem], [DashboardItem, UsuariosItem], [DashboardItem, UsuariosItem, InformesItem];
    assert AllButLast(one) == [];
    assert Filter(one, p) == if p(DashboardItem) then one else [];
    assert AllButLast(two) == one;
    assert Filter(two, p) == Filter(one, p) + (if p(UsuariosItem) then [UsuariosItem] else []);
    assert AllButLast(three) == two;
    assert Filter(three, p) == Filter(two, p) + (if p(InformesItem) then [InformesItem] else []);
    assert AllButLast(NavigationBase) == three;
    assert Navigation(role) == Filter(three, p) + (if p(LogOutItem) then [LogOutItem] else []);
  }

  /** The routes that exist under the dashboard for a role. */
  function Routes(role: Option<string>): (r: seq<string>)
    ensures "/" in r
    ensures "/users" in r <==> role == Some("admin")
    ensures "/informes" in r <==> role == Some("admin") || role == Some("editor")
  {
    ["/"]
    + (if role == Some("admin") then ["/users"] else [])
    + (if role == Some("admin") || role == Some("editor") then ["/informes"] else [])
  }

  /** An editor has the reports route, though the menu offers it no link. */
  lemma EditorReachesReportsWithoutLink()
    ensures "/informes" in Routes(Some("editor"))
    ensures InformesItem !in Navigation(Some("editor"))
  {
    NavigationByRole(Some("editor"));
  }

  // ------------------------------------------------------------ classNames

  /** `classes.join(" ")`. */
  function Join(classes: seq<string>): string
  {
    if |classes| == 0 then ""
    else if |classes| == 1 then classes[0]
    else Join(AllButLast(classes)) + " " + Last(classes)
  }

  function Truthy(s: string): bool { s != "" }

  /** `classNames(...classes)`: the truthy arguments joined by single spaces. */
  function ClassNames(classes: seq<string>): string
  {
    Join(Filter(classes, Truthy))
  }

  /** `s.split(" ")`: the pieces between spaces, empty ones included. */
  function Split(s: string): (r: seq<string>)
    ensures |r| > 0
  {
    if |s| == 0 then [""]
    else
      var pieces := Split(AllButLast(s));
      if Last(s) == ' ' then pieces + [""]
      else AllButLast(pieces) + [Last(pieces) + [Last(s)]]
  }

  lemma {:induction false} SplitAppendWord(x: string, w: string)
    requires ' ' !in w
    ensures Split(x + " " + w) == Split(x) + [w]
    decreases |w|
  {
    if |w| == 0 {
      assert x + " " + w == x + " ";
      assert AllButLast(x + " ") == x;
    } else {
      var v := AllButLast(w);
      assert x + " " + w == (x + " " + v) + [Last(w)];
      assert AllButLast(x + " " + w) == x + " " + v;
      SplitAppendWord(x, v);
      assert v + [Last(w)] == w;
    }
  }

  lemma {:induction false} SplitWord(w: string)
    requires ' ' !in w
    ensures Split(w) == [w]
    decreases |w|
  {
    if |w| > 0 {
      SplitWord(AllButLast(w));
      assert AllButLast(w) + [Last(w)] == w;
    }
  }

  /** Splitting a join of words without spaces gives the words back. */
  lemma {:induction false} SplitJoin(words: seq<string>)
    requires |words| > 0
    requires forall i :: 0 <= i < |words| ==> ' ' !in words[i]
    ensures Split(Join(words)) == words
    decreases |words|
  {
    if |words| == 1 {
      SplitWord(words[0]);
    } else {
      SplitJoin(AllButLast(words));
      SplitAppendWord(Join(AllButLast(words)), Last(words));
    }
  }

  /** When no argument holds a space and one is truthy, the class string
      splits back into exactly the truthy arguments, in order. */
  lemma ClassNamesRoundTrip(classes: seq<string>)
    requires forall i :: 0 <= i < |classes| ==> ' ' !in classes[i]
    requires exists i :: 0 <= i < |classes| && classes[i] != ""
    ensures Split(ClassNames(classes)) == Filter(classes, Truthy)
  {
    var kept := Filter(classes, Truthy);
    var i :| 0 <= i < |classes| && classes[i] != "";
    FilterMembership(classes, Truthy, classes[i]);
    forall k | 0 <= k < |kept|
      ensures ' ' !in kept[k]
    {
      FilterMembership(classes, Truthy, kept[k]);
    }
    SplitJoin(kept);
  }

  // ------------------------------------------------------------ the shell

  class DashboardShell {
    var sidebarOpen: bool
    /** Every path `navigate` was called with, in order. */
    var navigations: seq<string>
    /** How many times `logout` was called. */
    var logouts: nat

    constructor ()
      ensures !sidebarOpen && navigations == [] && logouts == 0
    {
      sidebarOpen, navigations, logouts := false, [], 0;
    }

    /** `handleNavigationClick`: "LogOut" logs out and goes to the login
        page, leaving the sidebar as it is; any other item goes to its
        link and closes the sidebar. */
    method HandleNavigationClick(item: NavItem)
      modifies this
      ensures item.name == "LogOut" ==>
        logouts == old(logouts) + 1 && navigations == old(navigations) + ["/login"] && sidebarOpen == old(sidebarOpen)
      ensures item.name != "LogOut" ==>
        logouts == old(logouts) && navigations == old(navigations) + [item.href] && !sidebarOpen
    {
      if item.name == "LogOut" {
        logouts := logouts + 1;
        navigations := navigations + ["/login"];
        return;
      }
      navigations := navigations + [item.href];
      sidebarOpen := false;
    }

    /** The hamburger button: opens the mobile menu and nothing else. */
    method OpenSidebar()
      modifies this
      ensures sidebarOpen && navigations == old(navigations) && logouts == old(logouts)
    {
      sidebarOpen := true;
    }

    /** The close button of the mobile menu, and the dialog's own `onClose`
        (which passes `false`): closes the menu and nothing else. */
    method CloseSidebar()
      modifies this
      ensures !sidebarOpen && navigations == old(navigations) && logouts == old(logouts)
    {
      sidebarOpen := false;
    }
  }
}
