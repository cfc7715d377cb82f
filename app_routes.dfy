/** The client's routing: the `PrivateRoute` guard, the route table, and the
    sidebar links of the layout. */
module AppRoutes {
  import opened Common

  predicate IsAdmin(u: User)
  {
    u.role == "admin"
  }

  datatype GuardOutcome = ToLogin | ToSales | RenderChildren

  /** `PrivateRoute`: no user goes to /login, a non-admin on an admin-only
      route goes to /sales, everyone else sees the page. */
  function Guard(user: Option<User>, adminOnly: bool): (r: GuardOutcome)
    ensures user.None? ==> r == ToLogin
    ensures user.Some? && adminOnly && !IsAdmin(user.value) ==> r == ToSales
    ensures r == RenderChildren <==> user.Some? && (adminOnly ==> IsAdmin(user.value))
  {
    if user.None? then ToLogin
    else if adminOnly && !IsAdmin(user.value) then ToSales
    else RenderChildren
  }

  /** How a path of the table is served. */
  datatype RouteKind = Open | Private(adminOnly: bool) | RedirectTo(target: string)

  /** The `<Routes>` table: /login is open, /sales and /orders need a user,
      the five admin pages need the admin role, and / redirects to /sales. */
  function RouteOf(path: string): Option<RouteKind>
  {
    if path == "/login" then Some(Open)
    else if path == "/sales" || path == "/orders" then Some(Private(false))
    else if path == "/products" || path == "/categories" || path == "/toppings"
            || path == "/inventory" || path == "/admin" then Some(Private(true))
    else if path == "/" then Some(RedirectTo("/sales"))
    else None
  }

  /** What the browser ends up with for a path. */
  datatype Screen = Page(path: string) | Redirect(target: string) | NoMatch

  function Resolve(path: string, user: Option<User>): Screen
  {
    match RouteOf(path)
    case None => NoMatch
    case Some(Open) => Page(path)
    case Some(RedirectTo(t)) => Redirect(t)
    case Some(Private(adminOnly)) =>
      match Guard(user, adminOnly)
      case ToLogin => Redirect("/login")
      case ToSales => Redirect("/sales")
      case RenderChildren => Page(path)
  }

  const StaffLinks: seq<string> := ["/sales", "/orders"]
  const AdminLinks: seq<string> := ["/products", "/categories", "/toppings", "/inventory", "/admin"]

  /** The sidebar of `AppLayout`: no layout at all without a user, the admin
      links only for the 'admin' role. */
  function NavLinks(user: Option<User>): (r: seq<string>)
    ensures user.None? ==> r == []
    ensures user.Some? ==> StaffLinks <= r
    ensures forall l :: l in AdminLinks ==> (l in r <==> user.Some? && IsAdmin(user.value))
  {
    if user.None? then []
    else if IsAdmin(user.value) then StaffLinks + AdminLinks
    else StaffLinks
  }

  // ---------------------------------------------------------------------------
  // Lemmas
  // ---------------------------------------------------------------------------

  /** Without a user every private path sends to /login, admin-only or not. */
  lemma NoUserGoesToLogin(path: string)
    requires RouteOf(path).Some? && RouteOf(path).value.Private?
    ensures Resolve(path, None) == Redirect("/login")
  {
  }

  /** A user who is not an admin never sees an admin-only page. */
  lemma NonAdminNeverSeesAdminPage(path: string, u: User)
    requires !IsAdmin(u) && RouteOf(path) == Some(Private(true))
    ensures Resolve(path, Some(u)) == Redirect("/sales")
  {
  }

  /** The admin links are exactly the admin-only routes. */
  lemma AdminLinksAreAdminRoutes(path: string)
    ensures path in AdminLinks <==> RouteOf(path) == Some(Private(true))
  {
  }

  /** Every link the sidebar shows opens its page for that user. */
  lemma NavLinksOpen(u: User, l: string)
    requires l in NavLinks(Some(u))
    ensures Resolve(l, Some(u)) == Page(l)
  {
  }

  /** The root path redirects to the sales page. */
  lemma RootRedirectsToSales(user: Option<User>)
    ensures Resolve("/", user) == Redirect("/sales")
  {
  }
}
