/** The sidebar menus and the choice among them by the stored role. A menu
    link is either a top-level path or a child of the administrator section,
    which the app mounts under `/uzm/`. */
module Sidebar {
  import opened Wrappers
  import opened Guards
  import opened Routes

  datatype Target = Top(path: string) | Admin(child: string)

  /** The URL a link points at. */
  function Url(t: Target): string
  {
    match t
    case Top(path) => path
    case Admin(child) => "/uzm/" + child
  }

  const DashboardLink := Top("/dashboard")

  /** ownerROUTES. */
  const OwnerMenu := [
    DashboardLink, Admin("users"), Admin("incomes"), Admin("expenses"),
    Admin("user-expenses"), Admin("income-categories"), Admin("expense-categories")
  ]

  /** managerROUTES. */
  const ManagerMenu := [DashboardLink, Admin("incomes"), Admin("expenses"), Admin("user-expenses")]

  /** userROUTES. */
  const UserMenu := [DashboardLink, Admin("user-expenses")]

  /** ROUTES, the template's menu, shown to every other role. */
  const DefaultMenu := [
    DashboardLink, Admin("income-categories"), Admin("expense-categories"), Admin("users"),
    Admin("incomes"), Admin("expenses"), Admin("user-expenses"),
    Top("/components"), Top("/forms"), Top("/tables"), Top("/maps"),
    Top("/widgets"), Top("/charts"), Top("/calendar"), Top("/pages")
  ]

  /** ngOnInit: role "1" gets the owner's menu, "2" the user's, "3" the
      manager's, and anything else (a missing role included) the template's;
      the identity filter copies the table unchanged. */
  function MenuFor(roleId: Option<string>): (menu: seq<Target>)
    ensures |menu| > 0 && menu[0] == DashboardLink
    ensures roleId == Some("1") ==> menu == OwnerMenu
    ensures roleId == Some("2") ==> menu == UserMenu
    ensures roleId == Some("3") ==> menu == ManagerMenu
    ensures roleId != Some("1") && roleId != Some("2") && roleId != Some("3") ==> menu == DefaultMenu
  {
    if roleId == Some("1") then OwnerMenu
    else if roleId == Some("2") then UserMenu
    else if roleId == Some("3") then ManagerMenu
    else DefaultMenu
  }

  /** Every link of `small` is also a link of `big`. */
  predicate Within(small: seq<Target>, big: seq<Target>)
  {
    forall i :: 0 <= i < |small| ==> small[i] in big
  }

  /** The user's links are among the manager's, and the manager's among the owner's. */
  lemma MenusNested()
    ensures Within(UserMenu, ManagerMenu)
    ensures Within(ManagerMenu, OwnerMenu)
  {
    assert UserMenu[1] == ManagerMenu[3];
    assert ManagerMenu[1] == OwnerMenu[2] && ManagerMenu[2] == OwnerMenu[3] && ManagerMenu[3] == OwnerMenu[4];
  }

  /** A link the role can follow: a top-level page, or an administrator
      route whose guard admits the role. */
  predicate Opens(t: Target, roleId: Option<string>)
  {
    t.Top? || exists j :: 0 <= j < |AdminRoutes| && AdminRoutes[j].path == t.child && Accepts(AdminRoutes[j].guard, roleId)
  }

  /** Every link in the owner's menu passes the guard of the route it opens. */
  lemma OwnerMenuPasses()
    ensures forall i :: 0 <= i < |OwnerMenu| ==> Opens(OwnerMenu[i], Some("1"))
  {
    forall j | 0 <= j < |AdminRoutes| { GuardsByRole(j); }
    assert AdminRoutes[2].path == OwnerMenu[1].child && AdminRoutes[3].path == OwnerMenu[2].child;
    assert AdminRoutes[4].path == OwnerMenu[3].child && AdminRoutes[5].path == OwnerMenu[4].child;
    assert AdminRoutes[0].path == OwnerMenu[5].child && AdminRoutes[1].path == OwnerMenu[6].child;
  }

  /** Every link in the manager's menu passes the guard of the route it opens. */
  lemma ManagerMenuPasses()
    ensures forall i :: 0 <= i < |ManagerMenu| ==> Opens(ManagerMenu[i], Some("3"))
  {
    GuardsByRole(3);
    GuardsByRole(4);
    GuardsByRole(5);
    assert AdminRoutes[3].path == ManagerMenu[1].child && AdminRoutes[4].path == ManagerMenu[2].child;
    assert AdminRoutes[5].path == ManagerMenu[3].child;
  }

  /** Every link in the user's menu passes the guard of the route it opens. */
  lemma UserMenuPasses()
    ensures forall i :: 0 <= i < |UserMenu| ==> Opens(UserMenu[i], Some("2"))
  {
    GuardsByRole(5);
    assert AdminRoutes[5].path == UserMenu[1].child;
  }

  /** The auditor gets the template menu, and every administrator link in
      it is one the auditor's role is refused. */
  lemma AuditorMenuRefused(i: int)
    requires 0 <= i < |MenuFor(Some("5"))|
    ensures MenuFor(Some("5"))[i].Admin? ==> !Opens(MenuFor(Some("5"))[i], Some("5"))
  {
    forall j | 0 <= j < |AdminRoutes| { GuardsByRole(j); }
  }
}
