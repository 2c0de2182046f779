/** The sidebar's navigation table and the filter that picks the links a user sees. */
module Sidebar {
  import opened Wrappers
  import opened Types
  import opened Lists
  import App

  /** A navigation link: its title, target path and the roles it is shown to. */
  datatype NavItem = NavItem(title: string, path: string, roles: seq<UserRole>)

  const DashboardItem := NavItem("Dashboard", "/", [Admin, Principal, Cashier])

  const AdminItems: seq<NavItem> := [
    NavItem("User Management", "/users", [Admin]),
    NavItem("Student Management", "/students", [Admin]),
    NavItem("Academic Management", "/academic", [Admin]),
    NavItem("Fee Structure", "/fee-structure", [Admin]),
    NavItem("Financial Reports", "/reports", [Admin]),
    NavItem("Audit Logs", "/audit-logs", [Admin])
  ]

  const PrincipalItems: seq<NavItem> := [
    NavItem("View Students", "/view-students", [Principal]),
    NavItem("View Reports", "/view-reports", [Principal]),
    NavItem("View Audit Logs", "/view-audit", [Principal])
  ]

  const CashierItems: seq<NavItem> := [
    NavItem("Fee Collection", "/fee-collection", [Cashier]),
    NavItem("Daily Session", "/daily-session", [Cashier]),
    NavItem("Reprint Receipt", "/reprint-receipt", [Cashier])
  ]

  /** `navItems`: the dashboard, then the admin-only, principal-only and cashier-only links. */
  const NavItems: seq<NavItem> := [DashboardItem] + AdminItems + PrincipalItems + CashierItems

  /** `item.roles.includes(user.role)`, comparing role strings. */
  predicate IncludesRole(roles: seq<UserRole>, role: string)
  {
    exists r :: r in roles && RoleName(r) == role
  }

  /** `filteredNavItems`: the items whose roles include the signed-in user's role. */
  function FilteredNavItems(user: Option<AuthUser>): (r: seq<NavItem>)
    ensures user.None? ==> r == []
    ensures IsSubsequence(r, NavItems)
  {
    if user.None? then []
    else FilterIsSubsequence(Shown(user.value.role), NavItems); Filter(Shown(user.value.role), NavItems)
  }

  /** Whether the signed-in user's role string is one the item lists. */
  function Shown(role: string): NavItem -> bool
  {
    (item: NavItem) => IncludesRole(item.roles, role)
  }

  /** A section whose items all list exactly the role `owner` is kept whole for that role and dropped for any other. */
  lemma {:induction false} FilterSection(items: seq<NavItem>, owner: UserRole, role: UserRole)
    requires forall i :: 0 <= i < |items| ==> items[i].roles == [owner]
    ensures Filter(Shown(RoleName(role)), items) == if role == owner then items else []
  {
    var shown := Shown(RoleName(role));
    if role == owner {
      forall i | 0 <= i < |items| ensures shown(items[i]) {
        assert owner in items[i].roles;
      }
      FilterKeepsAll(shown, items);
    } else {
      forall i | 0 <= i < |items| ensures !shown(items[i]) {
        assert ParseRole(RoleName(role)) == Some(role);
      }
      FilterKeepsNone(shown, items);
    }
  }

  /**
   * A table laid out as `navItems` is (a link for every role, then admin-only, principal-only and
   * cashier-only sections) shows each role the shared link followed by that role's own section.
   */
  lemma {:induction false} FilterTable(d: NavItem, a: seq<NavItem>, p: seq<NavItem>, c: seq<NavItem>, role: UserRole)
    requires role in d.roles
    requires forall i :: 0 <= i < |a| ==> a[i].roles == [Admin]
    requires forall i :: 0 <= i < |p| ==> p[i].roles == [Principal]
    requires forall i :: 0 <= i < |c| ==> c[i].roles == [Cashier]
    ensures Filter(Shown(RoleName(role)), [d] + a + p + c) ==
              [d] + match role case Admin => a case Principal => p case Cashier => c
  {
    var shown := Shown(RoleName(role));
    FilterAppend(shown, [d] + a + p, c);
    FilterAppend(shown, [d] + a, p);
    FilterAppend(shown, [d], a);
    FilterKeepsAll(shown, [d]);
    FilterSection(a, Admin, role);
    FilterSection(p, Principal, role);
    FilterSection(c, Cashier, role);
    match role
    case Admin => assert [d] + a + [] + [] == [d] + a;
    case Principal => assert [d] + [] + p + [] == [d] + p;
    case Cashier => assert [d] + [] + [] + c == [d] + c;
  }

  /** Each role sees the dashboard and exactly its own section of the table, in table order. */
  lemma LinksPerRole(user: AuthUser, role: UserRole)
    requires App.HasRole(user, role)
    ensures FilteredNavItems(Some(user)) == [DashboardItem] + SectionOf(role)
  {
    FilterTable(DashboardItem, AdminItems, PrincipalItems, CashierItems, role);
  }

  /** The links that only `role` sees. */
  function SectionOf(role: UserRole): seq<NavItem>
  {
    match role
    case Admin => AdminItems
    case Principal => PrincipalItems
    case Cashier => CashierItems
  }

  /** A user whose role string is none of the three roles sees no link. */
  lemma {:induction false} NoLinksForUnknownRole(user: AuthUser)
    requires ParseRole(user.role).None?
    ensures FilteredNavItems(Some(user)) == []
  {
    FilterKeepsNone(Shown(user.role), NavItems);
  }

  /** The admin sees 7 links, the principal 4 and the cashier 4. */
  lemma LinkCounts(user: AuthUser)
    ensures App.HasRole(user, Admin) ==> |FilteredNavItems(Some(user))| == 7
    ensures App.HasRole(user, Principal) ==> |FilteredNavItems(Some(user))| == 4
    ensures App.HasRole(user, Cashier) ==> |FilteredNavItems(Some(user))| == 4
  {
    if ParseRole(user.role).Some? {
      LinksPerRole(user, ParseRole(user.role).value);
    }
  }

  /** The dashboard link is shown to every one of the three roles. */
  lemma DashboardShownToEveryRole(user: AuthUser)
    requires ParseRole(user.role).Some?
    ensures DashboardItem in FilteredNavItems(Some(user))
    ensures FilteredNavItems(Some(user))[0] == DashboardItem
  {
    LinksPerRole(user, ParseRole(user.role).value);
  }

  /** Every path in a role's links is in that role's route table. */
  lemma SectionRouted(role: UserRole)
    ensures forall item :: item in [DashboardItem] + SectionOf(role) ==> item.path in App.RoutesFor(role)
  {
  }

  /** Every link shown to a user leads to a page the router renders for that user. */
  lemma ShownLinksAreRouted(user: AuthUser)
    ensures forall item :: item in FilteredNavItems(Some(user)) ==>
              App.DashboardRouter(Some(user), item.path).Render?
  {
    if ParseRole(user.role).Some? {
      var role := ParseRole(user.role).value;
      LinksPerRole(user, role);
      SectionRouted(role);
    } else {
      NoLinksForUnknownRole(user);
    }
  }

  /** An item is shown exactly when the user's role is among the item's roles. */
  lemma ShownIffRoleIncluded(user: Option<AuthUser>, item: NavItem)
    ensures item in FilteredNavItems(user) <==>
              item in NavItems && user.Some? && IncludesRole(item.roles, user.value.role)
  {
  }
}
