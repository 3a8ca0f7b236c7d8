/** The application shell (src/App.js): the `isAuthenticated` flag, its start-up check, the
    login-only branch and the protected routes. */
module App {
  import opened Wrappers
  import Text
  import Web
  import Http
  import Api
  import AuthSlice

  /** The screens behind the route table. */
  datatype Page = Dashboard | Services | Products | Orders | Users | Payments | Profile

  /** What the shell shows for a location. */
  datatype View =
    | LoginView                 // `AdminLogin`
    | PageView(page: Page)      // the protected screen itself
    | RedirectView(to: string)  // `<Navigate to=…/>`
    | NoRoute                   // no `<Route>` matches: the content area stays empty

  /** The path each protected screen is mounted at. */
  function PathOf(page: Page): string {
    match page
    case Dashboard => "/"
    case Services => "/services"
    case Products => "/products"
    case Orders => "/orders"
    case Users => "/users"
    case Payments => "/payments"
    case Profile => "/profile"
  }

  /** The location as react-router compares it with a route path: ASCII letters folded to lower case
      (route matching ignores case) and trailing slashes dropped, `/` standing for the root. */
  function NormalPath(path: string): (n: string)
    ensures n != []
  {
    var t := TrimTrailingSlashes(Text.LowerCase(path));
    if t == [] then "/" else t
  }

  /** The string without the slashes at its end. */
  function TrimTrailingSlashes(s: string): (t: string)
    ensures t <= s
    ensures t == [] || t[|t| - 1] != '/'
    ensures forall i :: |t| <= i < |s| ==> s[i] == '/'
    decreases |s|
  {
    if s != [] && s[|s| - 1] == '/' then TrimTrailingSlashes(s[..|s| - 1]) else s
  }

  /** The route table read the other way: the protected screen whose path matches `path`, if any. */
  function PageAt(path: string): Option<Page> {
    var n := NormalPath(path);
    if n == "/" then Some(Dashboard)
    else if n == "/services" then Some(Services)
    else if n == "/products" then Some(Products)
    else if n == "/orders" then Some(Orders)
    else if n == "/users" then Some(Users)
    else if n == "/payments" then Some(Payments)
    else if n == "/profile" then Some(Profile)
    else None
  }

  /** A route path is already in normal form. */
  lemma PathIsNormal(page: Page)
    ensures NormalPath(PathOf(page)) == PathOf(page)
  {
    var p := PathOf(page);
    assert Text.LowerCase(p) == p;
  }

  /** Every screen is found again at its own path, and exactly at the locations that match that path. */
  lemma RouteTableRoundTrip(page: Page, path: string)
    ensures PageAt(PathOf(page)) == Some(page)
    ensures PageAt(path) == Some(page) <==> NormalPath(path) == PathOf(page)
    ensures PageAt(Http.LOGIN_PATH).None?
  {
    PathIsNormal(page);
    LoginPathIsNormal();
  }

  lemma LoginPathIsNormal()
    ensures NormalPath(Http.LOGIN_PATH) == Http.LOGIN_PATH
  {
    assert Text.LowerCase(Http.LOGIN_PATH) == Http.LOGIN_PATH;
  }

  /** `ProtectedRoute`: the screen when authenticated, a redirect to the login path otherwise. */
  function ProtectedRoute(isAuthenticated: bool, page: Page): (v: View)
    ensures v == PageView(page) <==> isAuthenticated
    ensures v == RedirectView(Http.LOGIN_PATH) <==> !isAuthenticated
  {
    if isAuthenticated then PageView(page) else RedirectView(Http.LOGIN_PATH)
  }

  /** What `App` renders at `path`: only the login screen while unauthenticated; otherwise the route
      table, where `/login` shows the login screen and each protected path goes through `ProtectedRoute`. */
  function Render(isAuthenticated: bool, path: string): View {
    if !isAuthenticated then LoginView
    else if NormalPath(path) == Http.LOGIN_PATH then LoginView
    else match PageAt(path)
      case Some(page) => ProtectedRoute(isAuthenticated, page)
      case None => NoRoute
  }

  /** While unauthenticated nothing but the login screen is reachable, whatever the location. */
  lemma UnauthenticatedSeesOnlyLogin(path: string)
    ensures Render(false, path) == LoginView
    ensures forall page :: Render(false, path) != PageView(page)
  {
  }

  /** Inside the authenticated branch the gate always opens: every screen shows at its own path and
      `ProtectedRoute`'s redirect is never produced. */
  lemma {:induction false} AuthenticatedReachesEveryPage(page: Page, path: string)
    ensures Render(true, PathOf(page)) == PageView(page)
    ensures !Render(true, path).RedirectView?
    ensures Render(true, path) == PageView(page) <==> NormalPath(path) == PathOf(page)
  {
    RouteTableRoundTrip(page, path);
  }

  /** Letter case in the location does not matter: an upper-cased location selects what the
      location itself selects. */
  lemma {:induction false} CaseIsIgnored(path: string)
    ensures NormalPath(Text.UpperCase(path)) == NormalPath(path)
    ensures PageAt(Text.UpperCase(path)) == PageAt(path)
  {
    var u := Text.UpperCase(path);
    assert Text.LowerCase(u) == Text.LowerCase(path) by {
      forall i | 0 <= i < |path|
        ensures Text.LowerCase(u)[i] == Text.LowerCase(path)[i]
      {
        assert u[i] == Text.UpperChar(path[i]);
      }
    }
  }

  /** Trailing slashes do not matter: appending any run of `/` selects the same screen. */
  lemma {:induction false} TrailingSlashesAreIgnored(path: string, slashes: string)
    requires forall i :: 0 <= i < |slashes| ==> slashes[i] == '/'
    ensures NormalPath(path + slashes) == NormalPath(path)
    ensures PageAt(path + slashes) == PageAt(path)
  {
    var l := Text.LowerCase(path);
    assert Text.LowerCase(path + slashes) == l + slashes;
    TrimAppendedSlashes(l, slashes);
  }

  lemma {:induction false} TrimAppendedSlashes(s: string, slashes: string)
    requires forall i :: 0 <= i < |slashes| ==> slashes[i] == '/'
    ensures TrimTrailingSlashes(s + slashes) == TrimTrailingSlashes(s)
    decreases |slashes|
  {
    if slashes != [] {
      var shorter := slashes[..|slashes| - 1];
      assert (s + slashes)[|s + slashes| - 1] == '/';
      assert (s + slashes)[..|s + slashes| - 1] == s + shorter;
      TrimAppendedSlashes(s, shorter);
    } else {
      assert s + slashes == s;
    }
  }

  /** A location that differs from a route's path in case and by a trailing slash still reaches it. */
  lemma VariantLocationsReachPages()
    ensures Render(true, "/Orders/") == PageView(Orders)
    ensures Render(true, "/PAYMENTS") == PageView(Payments)
  {
    assert NormalPath("/Orders/") == "/orders";
    assert NormalPath("/PAYMENTS") == "/payments";
  }

  /** The mount effect's test `if (token)`: a stored, non-empty `adminToken`. */
  predicate TokenStored(storage: map<string, string>) {
    var token := Web.GetItem(storage, Web.ADMIN_TOKEN);
    token.Some? && token.value != ""
  }

  /** The flag after the mount effect: set when the token test passes, left alone otherwise. */
  function AfterMount(isAuthenticated: bool, storage: map<string, string>): bool {
    if TokenStored(storage) then true else isAuthenticated
  }

  /** The effect never lowers the flag; from the initial `false` it raises it iff a non-empty token is
      stored; and it agrees with `checkAuthStatus` and with the store's own start-up state. */
  lemma MountEffectRule(isAuthenticated: bool, storage: map<string, string>)
    ensures isAuthenticated ==> AfterMount(isAuthenticated, storage)
    ensures AfterMount(false, storage) <==> Web.ADMIN_TOKEN in storage && storage[Web.ADMIN_TOKEN] != ""
    ensures AfterMount(false, storage) == Api.CheckAuthStatus(storage)
    ensures AfterMount(false, storage) == AuthSlice.Initial(storage).isAuthenticated
  {
  }

  /** The state of the application after a full page load: a fresh `useState(false)`, raised by the
      mount effect from storage (the store is rebuilt from the same storage). */
  function Reloaded(storage: map<string, string>): (isAuthenticated: bool)
    ensures isAuthenticated == AuthSlice.Initial(storage).isAuthenticated
    ensures isAuthenticated <==> Web.ADMIN_TOKEN in storage && storage[Web.ADMIN_TOKEN] != ""
  {
    AfterMount(false, storage)
  }

  /** A 401 from the configured instance removes the token and assigns `window.location.href`, which
      reloads the page: the reloaded gate is closed, every location shows the login screen, and the
      rebuilt store is not authenticated. Any other outcome leaves the reloaded state as storage had it. */
  lemma ReloadAfter401(o: Http.Outcome, storage: map<string, string>, path: string)
    ensures Http.Unauthorized(o) ==>
      var after := Http.StorageAfter(o, storage);
      && !Reloaded(after)
      && Render(Reloaded(after), Http.LocationAfter(o, path)) == LoginView
      && Render(Reloaded(after), path) == LoginView
      && !AuthSlice.Initial(after).isAuthenticated
    ensures !Http.Unauthorized(o) ==> Reloaded(Http.StorageAfter(o, storage)) == Reloaded(storage)
  {
    Http.OnlyUnauthorizedResetsSession(o, storage, path);
  }

  /** The component's own state: the `isAuthenticated` hook. */
  class AppState {
    var isAuthenticated: bool

    /** `useState(false)`. */
    constructor ()
      ensures !isAuthenticated
    {
      isAuthenticated := false;
    }

    /** The `useEffect(…, [])` that runs once after the first render. */
    method MountEffect(browser: Web.Browser)
      modifies this
      ensures isAuthenticated == AfterMount(old(isAuthenticated), browser.storage)
    {
      var token := Web.GetItem(browser.storage, Web.ADMIN_TOKEN);
      if token.Some? && token.value != "" {
        isAuthenticated := true;
      }
    }

    /** `setIsAuthenticated`, handed to the login screen and the header. */
    method SetIsAuthenticated(value: bool)
      modifies this
      ensures isAuthenticated == value
    {
      isAuthenticated := value;
    }

    /** What the shell shows at the browser's location. */
    function View(browser: Web.Browser): View
      reads this, browser
    {
      Render(isAuthenticated, browser.location)
    }
  }
}
