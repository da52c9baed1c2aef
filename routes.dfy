/**
 * The route table and guards of frontend/src/App.js: `ProtectedRoute`,
 * `PublicRoute`, the root redirect and the catch-all redirect, as a pure
 * decision from the path and the session's `(user, loading)`.
 */
module Routes {
  import opened Wrappers
  import opened Records

  datatype Page = LoginPage | RegisterPage | DashboardPage | DiscoverPage | LeadsPage
                | LeadDetailPage(leadId: Id) | ContactsPage | TemplatesPage

  /** What a route element shows: the spinner, a `<Navigate replace>`, or a page (inside `Layout` or bare). */
  datatype Screen = Spinner | Redirect(to: string) | Render(page: Page, inLayout: bool)

  /** `ProtectedRoute`: spinner while loading, /login without a user, else the page inside the layout. */
  function ProtectedRoute(page: Page, user: Option<Profile>, loading: bool): (s: Screen)
    ensures loading <==> s == Spinner
    ensures s == Redirect("/login") <==> !loading && user.None?
    ensures s == Render(page, true) <==> !loading && user.Some?
  {
    if loading then Spinner
    else if user.None? then Redirect("/login")
    else Render(page, true)
  }

  /** `PublicRoute`: spinner while loading, /dashboard with a user, else the bare page. */
  function PublicRoute(page: Page, user: Option<Profile>, loading: bool): (s: Screen)
    ensures loading <==> s == Spinner
    ensures s == Redirect("/dashboard") <==> !loading && user.Some?
    ensures s == Render(page, false) <==> !loading && user.None?
  {
    if loading then Spinner
    else if user.Some? then Redirect("/dashboard")
    else Render(page, false)
  }

  /** The `:id` segment of `/leads/:id`: non-empty and without '/'. */
  predicate IsSegment(s: string) {
    s != [] && forall i :: 0 <= i < |s| ==> s[i] != '/'
  }

  /** The guarded routes of `AppRoutes`: the page a path selects and whether it is public. */
  function MatchRoute(path: string): Option<(Page, bool)> {
    if path == "/login" then Some((LoginPage, true))
    else if path == "/register" then Some((RegisterPage, true))
    else if path == "/dashboard" then Some((DashboardPage, false))
    else if path == "/discover" then Some((DiscoverPage, false))
    else if path == "/leads" then Some((LeadsPage, false))
    else if path == "/contacts" then Some((ContactsPage, false))
    else if path == "/templates" then Some((TemplatesPage, false))
    else if "/leads/" <= path && IsSegment(path[|"/leads/"|..]) then Some((LeadDetailPage(path[|"/leads/"|..]), false))
    else None
  }

  /** The screen for a path: the guard of its route, or the redirect to /dashboard for "/" and unknown paths. */
  function Show(path: string, user: Option<Profile>, loading: bool): (s: Screen)
    ensures MatchRoute(path).None? ==> s == Redirect("/dashboard")
  {
    match MatchRoute(path)
    case None => Redirect("/dashboard")
    case Some((page, public)) => if public then PublicRoute(page, user, loading) else ProtectedRoute(page, user, loading)
  }

  /** Neither guard redirects while loading; only the unguarded redirects do. */
  lemma NoRedirectWhileLoading(path: string, user: Option<Profile>)
    ensures MatchRoute(path).Some? ==> Show(path, user, true) == Spinner
    ensures MatchRoute(path).None? ==> Show(path, user, true) == Redirect("/dashboard")
  {
  }

  /** "/" is not a guarded route, so it always redirects to /dashboard. */
  lemma RootRedirects(user: Option<Profile>, loading: bool)
    ensures Show("/", user, loading) == Redirect("/dashboard")
  {
    assert !("/leads/" <= "/");
  }

  /** Every lead detail path renders that lead's page once a user is loaded. */
  lemma LeadDetailRoute(id: Id, u: Profile)
    requires IsSegment(id)
    ensures Show("/leads/" + id, Some(u), false) == Render(LeadDetailPage(id), true)
  {
    var path := "/leads/" + id;
    assert path[|"/leads/"|..] == id;
    assert path[6] == '/';
    assert path[1] == 'l';
    assert path != "/login" && path != "/register" && path != "/dashboard" && path != "/discover";
    assert path != "/leads" && path != "/contacts" && path != "/templates";
  }

  /** Once loaded, a session with a user sees protected pages and is sent away from public ones, and the reverse. */
  lemma GuardsAreComplementary(page: Page, user: Option<Profile>)
    ensures ProtectedRoute(page, user, false).Render? <==> PublicRoute(page, user, false).Redirect?
    ensures ProtectedRoute(page, user, false).Redirect? <==> PublicRoute(page, user, false).Render?
  {
  }
}
