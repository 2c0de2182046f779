/** `DashboardRouter`: which page a signed-in user sees at a path. */
module App {
  import opened Wrappers
  import opened Types

  /** The page components the router can render. */
  datatype Page =
    | AdminDashboardPage | UserManagementPage | StudentManagementPage | AcademicManagementPage
    | FeeStructurePage | FinancialReportsPage | AuditLogsPage | PrincipalDashboardPage
    | FeeCollectionPage | DailySessionPage | ReprintReceiptPage

  /** What the router renders: a redirect to `/login`, a page, or the NotFound page. */
  datatype Outcome = RedirectToLogin | Render(page: Page) | NotFound

  /** A `<Routes>` block: each path with the page its `<Route>` renders. */
  type RouteTable = map<string, Page>

  const AdminRoutes: RouteTable := map[
    "/" := AdminDashboardPage,
    "/users" := UserManagementPage,
    "/students" := StudentManagementPage,
    "/academic" := AcademicManagementPage,
    "/fee-structure" := FeeStructurePage,
    "/reports" := FinancialReportsPage,
    "/audit-logs" := AuditLogsPage
  ]

  const PrincipalRoutes: RouteTable := map[
    "/" := PrincipalDashboardPage,
    "/view-students" := StudentManagementPage,
    "/view-reports" := FinancialReportsPage,
    "/view-audit" := AuditLogsPage
  ]

  const CashierRoutes: RouteTable := map[
    "/" := FeeCollectionPage,
    "/fee-collection" := FeeCollectionPage,
    "/daily-session" := DailySessionPage,
    "/reprint-receipt" := ReprintReceiptPage
  ]

  /** The page routed at `path`, or NotFound from the catch-all `*` route. */
  function Route(table: RouteTable, path: string): (o: Outcome)
    ensures o.Render? || o.NotFound?
    ensures o.Render? <==> path in table
    ensures path in table ==> o == Render(table[path])
  {
    if path in table then Render(table[path]) else NotFound
  }

  /** The route table for a role. */
  function RoutesFor(r: UserRole): RouteTable
  {
    match r
    case Admin => AdminRoutes
    case Principal => PrincipalRoutes
    case Cashier => CashierRoutes
  }

  /** `DashboardRouter`: no user and an unknown role go to `/login`; each role has its own table. */
  function DashboardRouter(user: Option<AuthUser>, path: string): (o: Outcome)
    ensures user.None? ==> o == RedirectToLogin
    ensures o == RedirectToLogin <==> user.None? || ParseRole(user.value.role).None?
    ensures user.Some? && ParseRole(user.value.role).Some? ==>
              o == Route(RoutesFor(ParseRole(user.value.role).value), path)
  {
    if user.None? then RedirectToLogin
    else if user.value.role == "admin" then Route(AdminRoutes, path)
    else if user.value.role == "principal" then Route(PrincipalRoutes, path)
    else if user.value.role == "cashier" then Route(CashierRoutes, path)
    else RedirectToLogin
  }

  /** A user signed in with role `r`. */
  predicate HasRole(user: AuthUser, r: UserRole)
  {
    user.role == RoleName(r)
  }

  /** The pages a role can reach, and nothing else: every other path is NotFound. */
  lemma RoleTables(user: AuthUser, path: string)
    ensures HasRole(user, Admin) ==>
      DashboardRouter(Some(user), path) ==
        if path in {"/", "/users", "/students", "/academic", "/fee-structure", "/reports", "/audit-logs"}
        then Render(AdminRoutes[path]) else NotFound
    ensures HasRole(user, Principal) ==>
      DashboardRouter(Some(user), path) ==
        if path in {"/", "/view-students", "/view-reports", "/view-audit"}
        then Render(PrincipalRoutes[path]) else NotFound
    ensures HasRole(user, Cashier) ==>
      DashboardRouter(Some(user), path) ==
        if path in {"/", "/fee-collection", "/daily-session", "/reprint-receipt"}
        then Render(CashierRoutes[path]) else NotFound
  {
  }

  /** The principal's read-only views are the admin's student and report pages. */
  lemma PrincipalSharesAdminPages(principal: AuthUser, admin: AuthUser)
    requires HasRole(principal, Principal) && HasRole(admin, Admin)
    ensures DashboardRouter(Some(principal), "/view-students") == DashboardRouter(Some(admin), "/students") == Render(StudentManagementPage)
    ensures DashboardRouter(Some(principal), "/view-reports") == DashboardRouter(Some(admin), "/reports") == Render(FinancialReportsPage)
    ensures DashboardRouter(Some(principal), "/view-audit") == DashboardRouter(Some(admin), "/audit-logs") == Render(AuditLogsPage)
  {
  }

  /** The cashier's home page and `/fee-collection` render the same page. */
  lemma CashierHomeIsFeeCollection(cashier: AuthUser)
    requires HasRole(cashier, Cashier)
    ensures DashboardRouter(Some(cashier), "/") == DashboardRouter(Some(cashier), "/fee-collection") == Render(FeeCollectionPage)
  {
  }

  /** Apart from `/`, no path is routed for two different roles. */
  lemma {:induction false} RoutesDisjoint(u1: AuthUser, u2: AuthUser, path: string)
    requires path != "/"
    requires DashboardRouter(Some(u1), path).Render? && DashboardRouter(Some(u2), path).Render?
    ensures u1.role == u2.role
  {
    RoleTables(u1, path);
    RoleTables(u2, path);
  }

  /** The header's `/profile` and `/settings` links are routed for no role. */
  lemma ProfileAndSettingsAreNotFound(user: AuthUser)
    requires ParseRole(user.role).Some?
    ensures DashboardRouter(Some(user), "/profile") == NotFound
    ensures DashboardRouter(Some(user), "/settings") == NotFound
  {
    RoleTables(user, "/profile");
    RoleTables(user, "/settings");
  }
}
