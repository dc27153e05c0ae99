/** The route table and its guards (src/App.tsx), as decisions on
    `isAuthenticated`. */
module App {
  import opened Wrappers

  /** The locations the router matches. */
  datatype Location = Root | LoginPath | RegisterPath | DashboardPath | ProjectPath(id: string)

  /** The page components behind the routes. */
  datatype Page = LoginPage | RegisterPage | DashboardPage | ProjectDetailsPage(id: string)

  /** What a route element does: show a page, or `<Navigate to=…>`. */
  datatype Outcome = Render(page: Page) | Redirect(to: Location)

  predicate IsPrivate(p: Page) {
    p.DashboardPage? || p.ProjectDetailsPage?
  }

  /** `PrivateRoute`: the children when authenticated, else a redirect to `/login`. */
  function PrivateRoute(isAuthenticated: bool, child: Page): (o: Outcome)
    ensures o.Render? <==> isAuthenticated
    ensures o.Render? ==> o.page == child
    ensures o.Redirect? ==> o.to == LoginPath
  {
    if isAuthenticated then Render(child) else Redirect(LoginPath)
  }

  /** `PublicRoute`: the children when not authenticated, else a redirect to
      `/dashboard`; it renders exactly when `PrivateRoute` does not. */
  function PublicRoute(isAuthenticated: bool, child: Page): (o: Outcome)
    ensures o.Render? <==> !PrivateRoute(isAuthenticated, child).Render?
    ensures o.Render? ==> o.page == child
    ensures o.Redirect? ==> o.to == DashboardPath
  {
    if !isAuthenticated then Render(child) else Redirect(DashboardPath)
  }

  /** The element of each route: `/` always redirects to `/dashboard`; `/login`
      and `/register` are public; `/dashboard` and `/projects/:id` private. */
  function RouteElement(loc: Location, isAuthenticated: bool): (o: Outcome)
    ensures loc == Root ==> o == Redirect(DashboardPath)
    ensures loc == LoginPath ==> o == (if isAuthenticated then Redirect(DashboardPath) else Render(LoginPage))
    ensures loc == RegisterPath ==> o == (if isAuthenticated then Redirect(DashboardPath) else Render(RegisterPage))
    ensures loc == DashboardPath ==> o == (if isAuthenticated then Render(DashboardPage) else Redirect(LoginPath))
    ensures loc.ProjectPath? ==> o == (if isAuthenticated then Render(ProjectDetailsPage(loc.id)) else Redirect(LoginPath))
    ensures o.Render? ==> (IsPrivate(o.page) <==> isAuthenticated)
  {
    match loc
    case Root => Redirect(DashboardPath)
    case LoginPath => PublicRoute(isAuthenticated, LoginPage)
    case RegisterPath => PublicRoute(isAuthenticated, RegisterPage)
    case DashboardPath => PrivateRoute(isAuthenticated, DashboardPage)
    case ProjectPath(id) => PrivateRoute(isAuthenticated, ProjectDetailsPage(id))
  }

  /** Follows redirects from `loc` for at most `hops` navigations. */
  function Navigate(loc: Location, isAuthenticated: bool, hops: nat): Option<Page>
    decreases hops
  {
    match RouteElement(loc, isAuthenticated)
    case Render(p) => Some(p)
    case Redirect(to) => if hops == 0 then None else Navigate(to, isAuthenticated, hops - 1)
  }

  /** Every location settles on a page within two redirects, and that page is
      private exactly when the visitor is authenticated. */
  lemma NavigationSettles(loc: Location, isAuthenticated: bool)
    ensures Navigate(loc, isAuthenticated, 2).Some?
    ensures IsPrivate(Navigate(loc, isAuthenticated, 2).value) <==> isAuthenticated
    ensures loc == Root && !isAuthenticated ==> Navigate(loc, isAuthenticated, 2) == Some(LoginPage)
    ensures loc == Root && isAuthenticated ==> Navigate(loc, isAuthenticated, 2) == Some(DashboardPage)
    ensures loc == LoginPath && isAuthenticated ==> Navigate(loc, isAuthenticated, 2) == Some(DashboardPage)
  {
  }
}
