/**
  The navigation menu of `SidebarComponent`: ten fixed entries, shown to a
  logged-in user according to the route policy. Two entries are admin-only;
  for the rest the route table decides, and the `roles` list each entry
  declares is never consulted.
*/
module Sidebar {
  import opened Wrappers
  import opened Model
  import opened RoleFilter
  import Seqs

  /** A menu entry; `adminOnly` is false where the source leaves it out. The emoji icon is not modelled. */
  datatype NavItem = NavItem(route: string, labelText: string, adminOnly: bool, roles: seq<Role>)

  const NavItems: seq<NavItem> := [
    NavItem("/dashboard", "Dashboard", false, [Owner, Sitter, Admin]),
    NavItem("/users", "Usuarios", true, []),
    NavItem("/patients", "Due\U{F1}os", true, []),
    NavItem("/calendar", "Calendario", false, [Owner, Sitter, Admin]),
    NavItem("/pets", "Mascotas", false, [Owner, Sitter, Admin]),
    NavItem("/care-sessions", "Sesiones de Cuidado", false, [Owner, Sitter, Admin]),
    NavItem("/session-reports", "Reportes de Sesi\U{F3}n", false, [Owner, Sitter, Admin]),
    NavItem("/locations", "Ubicaciones", false, [Owner, Sitter, Admin]),
    NavItem("/photos", "Fotos", false, [Owner, Sitter, Admin]),
    NavItem("/map", "Mapa", false, [Owner, Sitter, Admin])
  ]

  /** The per-entry test of `visibleNavItems`. */
  predicate ItemVisible(user: Option<User>, item: NavItem) {
    if item.adminOnly then IsAdmin(user) else CanAccessRoute(user, item.route)
  }

  function ItemVisibleTo(user: Option<User>): NavItem -> bool {
    (item: NavItem) => ItemVisible(user, item)
  }

  /** `visibleNavItems`: nothing when logged out, else the entries passing the test, in menu order. */
  function VisibleNavItems(user: Option<User>): (r: seq<NavItem>)
    ensures user.None? ==> r == []
    ensures Seqs.IsSubseq(r, NavItems)
    ensures forall item :: item in r <==> item in NavItems && ItemVisible(user, item)
  {
    if user.None? then
      Seqs.FilterKeepsNone(NavItems, ItemVisibleTo(user));
      []
    else Seqs.Filter(NavItems, ItemVisibleTo(user))
  }

  /** The routes of the entries a user sees. */
  predicate ShowsRoute(user: Option<User>, route: string) {
    exists item :: item in VisibleNavItems(user) && item.route == route
  }

  /** The two entries flagged admin-only. */
  predicate AdminOnlyRoute(route: string) {
    route == "/users" || route == "/patients"
  }

  /** The menu entry of a route of the table: the menu and the table list the same ten routes. */
  function ItemFor(route: string): (item: NavItem)
    requires route in RoutePermissions
    ensures item in NavItems && item.route == route && item.adminOnly == AdminOnlyRoute(route)
  {
    if route == "/dashboard" then NavItems[0]
    else if route == "/users" then NavItems[1]
    else if route == "/patients" then NavItems[2]
    else if route == "/calendar" then NavItems[3]
    else if route == "/pets" then NavItems[4]
    else if route == "/care-sessions" then NavItems[5]
    else if route == "/session-reports" then NavItems[6]
    else if route == "/locations" then NavItems[7]
    else if route == "/photos" then NavItems[8]
    else NavItems[9]
  }

  /** Every entry's route is in the table, and an entry is admin-only exactly when its route is one of the two. */
  lemma NavItemsMatchTable(item: NavItem)
    requires item in NavItems
    ensures item.route in RoutePermissions && item.adminOnly == AdminOnlyRoute(item.route)
  {
  }

  /** A route shows in the menu exactly when it is a table route and the user passes the entry's test. */
  lemma ShowsRouteIff(user: Option<User>, route: string)
    ensures ShowsRoute(user, route) <==>
              route in RoutePermissions && (if AdminOnlyRoute(route) then IsAdmin(user) else CanAccessRoute(user, route))
  {
    if ShowsRoute(user, route) {
      var item :| item in VisibleNavItems(user) && item.route == route;
      NavItemsMatchTable(item);
    }
    if route in RoutePermissions && (if AdminOnlyRoute(route) then IsAdmin(user) else CanAccessRoute(user, route)) {
      var item := ItemFor(route);
      assert ItemVisible(user, item);
      assert item in VisibleNavItems(user);
    }
  }

  /**
    The menu each role ends up with. An admin sees all ten entries; a
    therapist does not see the patients entry the route table grants, as it
    is admin-only; a sitter does not see pets or locations although the
    entries list sitters among their roles.
  */
  lemma MenuByRole(u: User, route: string)
    ensures u.role == Admin ==> (ShowsRoute(Some(u), route) <==> route in RoutePermissions)
    ensures u.role == Owner ==> (ShowsRoute(Some(u), route) <==> route in RoutePermissions && !AdminOnlyRoute(route))
    ensures u.role == Sitter ==>
              (ShowsRoute(Some(u), route) <==>
                 route in {"/dashboard", "/calendar", "/care-sessions", "/session-reports", "/photos", "/map"})
    ensures u.role == Therapist ==> (ShowsRoute(Some(u), route) <==> route in {"/dashboard", "/calendar"})
    ensures u.role == PatientRole ==> (ShowsRoute(Some(u), route) <==> route == "/dashboard")
    ensures u.role == Unrecognized ==> !ShowsRoute(Some(u), route)
  {
    ShowsRouteIff(Some(u), route);
    RouteAccessByRole(u, route);
  }

  /** The menu never shows an entry whose route the user could not open. */
  lemma MenuWithinRoutePolicy(user: Option<User>, item: NavItem)
    requires item in VisibleNavItems(user)
    ensures CanAccessRoute(user, item.route)
  {
  }

  /** The declared `roles` do not decide visibility: a sitter is listed on the pets entry yet does not see it. */
  lemma RolesFieldIgnored(u: User)
    requires u.role == Sitter
    ensures Sitter in NavItems[4].roles && NavItems[4] !in VisibleNavItems(Some(u))
  {
    assert !ItemVisible(Some(u), NavItems[4]);
  }
}
