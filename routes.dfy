/**
 * The router of src/App.tsx: an exact-path route table, the `ProtectedRoute`
 * guard wrapped around the dashboard pages, and the `*` route that sends
 * every other path to the home page.
 */
module Routes {
  import opened Common
  import Types
  import opened Text
  import Seqs

  datatype Page =
    | Home | About | Committees | Registration | Resources | Faq | Contact | Login
    | Dashboard | MyRegistration | Delegates | Documents

  /** One `<Route>`: its path, its page, and whether the page sits inside `ProtectedRoute`. */
  datatype Route = Route(path: string, page: Page, guarded: bool)

  /** What is on screen: a page, the loading spinner, or a `<Navigate replace>` to another path. */
  datatype View = Show(page: Page) | Spinner | Redirect(to: string)

  const DashboardPrefix := "/dashboard"

  const RouteTable: seq<Route> := [
    Route("/", Home, false),
    Route("/about", About, false),
    Route("/committees", Committees, false),
    Route("/registration", Registration, false),
    Route("/resources", Resources, false),
    Route("/faq", Faq, false),
    Route("/contact", Contact, false),
    Route("/login", Login, false),
    Route("/dashboard", Dashboard, true),
    Route("/dashboard/registration", MyRegistration, true),
    Route("/dashboard/delegates", Delegates, true),
    Route("/dashboard/documents", Documents, true)
  ]

  /** `ProtectedRoute`: spinner while the session is read, then the child for a user and the login page otherwise. */
  function Guard(loading: bool, user: Option<Types.User>, child: Page): (v: View)
    ensures loading ==> v == Spinner
    ensures !loading && user.None? ==> v == Redirect("/login")
    ensures !loading && user.Some? ==> v == Show(child)
  {
    if loading then Spinner
    else if user.None? then Redirect("/login")
    else Show(child)
  }

  /** The route whose path equals `path` exactly, searched from the top of the table. */
  function Lookup(table: seq<Route>, path: string): Option<nat> {
    Seqs.FindFirst(table, (r: Route) => r.path == path)
  }

  /** The view for a location. */
  function Render(path: string, loading: bool, user: Option<Types.User>): (v: View)
    ensures (forall i :: 0 <= i < |RouteTable| ==> RouteTable[i].path != path) ==> v == Redirect("/")
    ensures forall i :: 0 <= i < |RouteTable| && RouteTable[i].path == path ==>
      v == if RouteTable[i].guarded then Guard(loading, user, RouteTable[i].page) else Show(RouteTable[i].page)
  {
    PathsDistinct();
    match Lookup(RouteTable, path)
    case None => Redirect("/")
    case Some(i) =>
      var route := RouteTable[i];
      if route.guarded then Guard(loading, user, route.page) else Show(route.page)
  }

  /** No two routes share a path, so the first match is the only one. */
  lemma PathsDistinct()
    ensures forall i, j :: 0 <= i < j < |RouteTable| ==> RouteTable[i].path != RouteTable[j].path
  {
  }

  /** A route is guarded exactly when its path starts with /dashboard; four are, eight are not. */
  lemma GuardedExactlyDashboard()
    ensures forall i :: 0 <= i < |RouteTable| ==>
      (RouteTable[i].guarded <==> StartsWith(RouteTable[i].path, DashboardPrefix))
    ensures |RouteTable| == 12
    ensures forall i :: 0 <= i < |RouteTable| ==> (RouteTable[i].guarded <==> i >= 8)
  {
    forall i | 0 <= i < |RouteTable|
      ensures RouteTable[i].guarded <==> StartsWith(RouteTable[i].path, DashboardPrefix)
    {
      var p := RouteTable[i].path;
      if i < 8 {
        assert |p| < |DashboardPrefix| || p[1] != DashboardPrefix[1];
      } else {
        assert p[..|DashboardPrefix|] == DashboardPrefix;
      }
    }
  }

  /** Each route's own path finds that route. */
  lemma LookupOwnPath(i: nat)
    requires i < |RouteTable|
    ensures Lookup(RouteTable, RouteTable[i].path) == Some(i)
  {
    PathsDistinct();
    var r := Lookup(RouteTable, RouteTable[i].path);
    assert r.Some?;
    assert r.value <= i;
  }

  /** A public path shows its page whether or not anyone is signed in, even while loading. */
  lemma PublicPathsShow(i: nat, loading: bool, user: Option<Types.User>)
    requires i < 8
    ensures Render(RouteTable[i].path, loading, user) == Show(RouteTable[i].page)
  {
    LookupOwnPath(i);
    GuardedExactlyDashboard();
  }

  /** A dashboard path is guarded: spinner while loading, login without a user, the page with one. */
  lemma DashboardPathsGuarded(i: nat, loading: bool, user: Option<Types.User>)
    requires 8 <= i < |RouteTable|
    ensures Render(RouteTable[i].path, loading, user) == Guard(loading, user, RouteTable[i].page)
  {
    LookupOwnPath(i);
    GuardedExactlyDashboard();
  }

  /** Every path missing from the table is redirected home. */
  lemma UnknownPathRedirectsHome(path: string, loading: bool, user: Option<Types.User>)
    requires forall i :: 0 <= i < |RouteTable| ==> RouteTable[i].path != path
    ensures Render(path, loading, user) == Redirect("/")
  {
  }

  /**
   * The post-login targets /profile and /admin and the sign-up page's own path
   * are not in the table, so each of them lands on the home page.
   */
  lemma LoginTargetsRedirectHome(loading: bool, user: Option<Types.User>)
    ensures Render("/profile", loading, user) == Redirect("/")
    ensures Render("/admin", loading, user) == Redirect("/")
    ensures Render("/signup", loading, user) == Redirect("/")
  {
    forall i | 0 <= i < |RouteTable|
      ensures RouteTable[i].path != "/profile" && RouteTable[i].path != "/admin"
        && RouteTable[i].path != "/signup"
    {
    }
    UnknownPathRedirectsHome("/profile", loading, user);
    UnknownPathRedirectsHome("/admin", loading, user);
    UnknownPathRedirectsHome("/signup", loading, user);
  }
}
