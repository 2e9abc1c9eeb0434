/** The route table and the guard in front of the dashboard. */
module App {
  import opened Wrappers
  import opened Api
  import opened Storage
  import LoginPage

  datatype Page = LoginScreen | RegisterScreen | DashboardScreen

  /** What a route renders: a page, a redirect, or nothing for an unknown path. */
  datatype Element = Show(page: Page) | Redirect(to: string) | NoMatch

  const LOGIN_PATH: string := "/login"
  const DASHBOARD_PATH: string := "/dashboard"

  /** `ProtectedRoute`: the children when storage holds a (truthy) access token, else a redirect to the sign-in page. */
  function ProtectedRoute(items: map<string, string>, child: Page): (e: Element)
    ensures e == Show(child) <==> HasAccessToken(items)
    ensures e != Show(child) ==> e == Redirect(LOGIN_PATH)
  {
    if HasAccessToken(items) then Show(child) else Redirect(LOGIN_PATH)
  }

  /** ASCII case folding, one character at a time. */
  function LowerAscii(c: char): char {
    if 'A' <= c <= 'Z' then (c as int + 32) as char else c
  }

  /** A pathname without its trailing slashes. */
  function TrimTrailingSlashes(p: string): (q: string)
    ensures |q| <= |p| && q == p[..|q|]
    ensures q == [] || q[|q| - 1] != '/'
    ensures forall i :: |q| <= i < |p| ==> p[i] == '/'
    decreases |p|
  {
    if p != [] && p[|p| - 1] == '/' then TrimTrailingSlashes(p[..|p| - 1]) else p
  }

  /**
   What the router compares with a route's path: the pathname with its
   trailing slashes dropped and ASCII letters folded to lower case, since
   routes match case-insensitively and ignore trailing slashes. The root
   `/` becomes the empty key.
   */
  function RouteKey(p: string): (k: string)
    ensures |k| == |TrimTrailingSlashes(p)|
    ensures forall i :: 0 <= i < |k| ==> k[i] == LowerAscii(p[i])
  {
    var q := TrimTrailingSlashes(p);
    seq(|q|, i requires 0 <= i < |q| => LowerAscii(q[i]))
  }

  /** A pathname already in lower case and without a trailing slash is its own key. */
  lemma KeyOfPlainPath(p: string)
    requires p == [] || p[|p| - 1] != '/'
    requires forall i :: 0 <= i < |p| ==> !('A' <= p[i] <= 'Z')
    ensures RouteKey(p) == p
  {
  }

  /** The `<Routes>` table of `App`. */
  function Route(path: string, items: map<string, string>): Element {
    var k := RouteKey(path);
    if k == "/login" then Show(LoginScreen)
    else if k == "/register" then Show(RegisterScreen)
    else if k == "" then Redirect(LOGIN_PATH)
    else if k == DASHBOARD_PATH then ProtectedRoute(items, DashboardScreen)
    else NoMatch
  }

  /** The page finally on screen for `path`, following at most one redirect. */
  function Resolve(path: string, items: map<string, string>): Option<Page> {
    match Route(path, items)
    case Show(p) => Some(p)
    case Redirect(to) => (match Route(to, items) case Show(p) => Some(p) case _ => None)
    case NoMatch => None
  }

  /**
   The root always lands on the sign-in page; the sign-in and sign-up pages
   are never gated; the dashboard shows exactly when a token is present
   and otherwise lands on the sign-in page.
   */
  lemma RoutesResolve(items: map<string, string>)
    ensures Route("/", items) == Redirect(LOGIN_PATH) && Resolve("/", items) == Some(LoginScreen)
    ensures Resolve("/login", items) == Some(LoginScreen)
    ensures Resolve("/register", items) == Some(RegisterScreen)
    ensures Resolve("/dashboard", items) == Some(if HasAccessToken(items) then DashboardScreen else LoginScreen)
  {
    KeyOfPlainPath("/login");
    KeyOfPlainPath("/register");
    KeyOfPlainPath("/dashboard");
    assert RouteKey("/") == [];
  }

  /**
   The guard stands in front of every spelling the router sends to the
   dashboard route: `/dashboard` in any mix of capitals, with or without a
   trailing slash.
   */
  lemma GuardCoversDashboardSpellings(path: string, items: map<string, string>)
    requires |path| == |DASHBOARD_PATH| && forall i :: 0 <= i < |path| ==> LowerAscii(path[i]) == DASHBOARD_PATH[i]
    ensures Route(path, items) == ProtectedRoute(items, DashboardScreen)
    ensures Route(path + "/", items) == ProtectedRoute(items, DashboardScreen)
  {
    assert LowerAscii(path[|path| - 1]) == 'd';
    assert TrimTrailingSlashes(path) == path;
    assert (path + "/")[..|path|] == path;
    assert TrimTrailingSlashes(path + "/") == path;
    assert RouteKey(path) == DASHBOARD_PATH;
  }

  /** Only the dashboard route depends on storage: every path the router sends elsewhere resolves the same whatever storage holds. */
  lemma OnlyDashboardGated(path: string, items1: map<string, string>, items2: map<string, string>)
    requires RouteKey(path) != DASHBOARD_PATH
    ensures Route(path, items1) == Route(path, items2)
  {
  }

  /** The guard looks at the access token alone: writing or removing the refresh token never changes it. */
  lemma GuardIgnoresRefreshToken(items: map<string, string>, refresh: string, child: Page)
    ensures ProtectedRoute(items[REFRESH_TOKEN := refresh], child) == ProtectedRoute(items, child)
    ensures ProtectedRoute(items - {REFRESH_TOKEN}, child) == ProtectedRoute(items, child)
  {
    TokenKeysDistinct();
  }

  /**
   Signing in on the sign-in page and then opening `/dashboard`: the
   dashboard shows exactly when the server issued a non-empty access token;
   a rejected sign-in, or a form the browser refuses to submit, leaves the
   guard's decision as it was.
   */
  method SignInThenOpenDashboard(items: map<string, string>, username: string, password: string, result: Result<Tokens>)
    returns (went: Option<string>, landed: Option<Page>)
    ensures (username == "" || password == "") ==> went == None && landed == Resolve("/dashboard", items)
    ensures username != "" && password != "" && result.Ok? ==>
      went == Some("/dashboard") &&
      landed == Some(if result.value.access != "" then DashboardScreen else LoginScreen)
    ensures result.Err? ==> went == None && landed == Resolve("/dashboard", items)
  {
    var store := new LocalStorage(items);
    var page := new LoginPage.Login(store);
    page.Type(username, password);
    page.Submit(result);
    went := page.navigatedTo;
    if result.Ok? && username != "" && password != "" {
      WithTokensGivesAccess(items, result.value.access, result.value.refresh);
    }
    landed := Resolve("/dashboard", store.items);
  }
}
