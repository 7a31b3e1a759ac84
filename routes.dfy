/** The application's routing: which view each path shows for the current authentication
    state, and the authentication callback that settles that state. */
module Routes {
  import opened Common
  import Search

  /** What `App` renders for a path. */
  datatype View =
    | Spinner
    | LoginForm
    | SignUpForm
    | DashboardPage
    | CompanyPage(symbol: string)
    | Redirect(to: string)
    | NoMatch

  /** The `:symbol` of `/company/:symbol`: one non-empty path segment. */
  function CompanySymbol(path: string): (r: Option<string>)
    ensures r.Some? ==> path == Search.CompanyPrefix + r.value && r.value != "" && '/' !in r.value
  {
    var n := |Search.CompanyPrefix|;
    if |path| > n && path[..n] == Search.CompanyPrefix && '/' !in path[n..] then
      assert path == path[..n] + path[n..];
      Some(path[n..])
    else None
  }

  /** The five paths the router knows. */
  predicate KnownPath(path: string)
    ensures path == "/login" || path == "/signup" || path == "/dashboard" || path == "/" ==> KnownPath(path)
    ensures KnownPath(path) ==> |path| >= 1 && path[0] == '/'
  {
    path in {"/login", "/signup", "/dashboard", "/"} || CompanySymbol(path).Some?
  }

  /** The view for `path` when a user is signed in (`signedIn`) or not, while the first
      authentication report is still awaited (`loading`) or not. */
  function Route(path: string, signedIn: bool, loading: bool): (v: View)
    ensures loading ==> v == Spinner
    ensures v == LoginForm || v == SignUpForm ==> !signedIn
    ensures v == DashboardPage ==> signedIn
    ensures v == NoMatch <==> !loading && !KnownPath(path)
  {
    if loading then Spinner
    else if path == "/login" then (if !signedIn then LoginForm else Redirect("/dashboard"))
    else if path == "/signup" then (if !signedIn then SignUpForm else Redirect("/dashboard"))
    else if path == "/dashboard" then (if signedIn then DashboardPage else Redirect("/login"))
    else if CompanySymbol(path).Some? then CompanyPage(CompanySymbol(path).value)
    else if path == "/" then Redirect(if signedIn then "/dashboard" else "/login")
    else NoMatch
  }

  /** The guards: the forms show exactly when nobody is signed in, the dashboard exactly
      when somebody is, and otherwise each of them redirects to the other side. */
  lemma GuardedRoutes(signedIn: bool)
    ensures Route("/login", signedIn, false) == (if signedIn then Redirect("/dashboard") else LoginForm)
    ensures Route("/signup", signedIn, false) == (if signedIn then Redirect("/dashboard") else SignUpForm)
    ensures Route("/dashboard", signedIn, false) == (if signedIn then DashboardPage else Redirect("/login"))
    ensures Route("/", signedIn, false) == Redirect(if signedIn then "/dashboard" else "/login")
  {
    FixedPathsAreNotCompanyPaths();
  }

  /** A path no longer than the company prefix, or whose second character is not that of
      the prefix, is no company path. */
  lemma NotCompanyPath(path: string)
    requires |path| <= |Search.CompanyPrefix| || path[1] != 'c'
    ensures CompanySymbol(path).None?
  {
  }

  /** The fixed paths are no company paths. */
  lemma FixedPathsAreNotCompanyPaths()
    ensures forall p :: p in {"/login", "/signup", "/dashboard", "/"} ==> CompanySymbol(p).None?
  {
    NotCompanyPath("/login");
    NotCompanyPath("/signup");
    NotCompanyPath("/dashboard");
    NotCompanyPath("/");
  }

  /** No path leads to the chat page: once loading has ended, a path outside the five
      known ones matches nothing. */
  lemma NoChatbotRoute(signedIn: bool)
    ensures Route("/chatbot", signedIn, false) == NoMatch
  {
    NotCompanyPath("/chatbot");
  }

  /** A company page shows whoever is signed in. */
  lemma CompanyRouteIgnoresAuth(path: string)
    requires CompanySymbol(path).Some?
    ensures Route(path, true, false) == Route(path, false, false) == CompanyPage(CompanySymbol(path).value)
  {
    FixedPathsAreNotCompanyPaths();
  }

  /** Every redirect lands on a page that renders: one redirect step always settles. */
  lemma RedirectsSettle(path: string, signedIn: bool)
    requires Route(path, signedIn, false).Redirect?
    ensures var target := Route(path, signedIn, false).to;
            !Route(target, signedIn, false).Redirect? && Route(target, signedIn, false) != NoMatch
  {
    GuardedRoutes(signedIn);
  }

  /** Selecting a search hit opens that company's page, signed in or not. */
  lemma CompanyClickRenders(hit: Search.Hit, symbol: string, signedIn: bool)
    requires symbol != "" && '/' !in symbol && hit.url == Search.CompanyPrefix + symbol + "/"
    ensures Route(Search.CompanyClick(Search.Format(hit)).path, signedIn, false) == CompanyPage(symbol)
  {
    Search.ClickLeadsToCompanyUrl(hit, symbol);
    var path := Search.CompanyPrefix + symbol;
    assert path[..|Search.CompanyPrefix|] == Search.CompanyPrefix;
    assert path[|Search.CompanyPrefix|..] == symbol;
    FixedPathsAreNotCompanyPaths();
  }

  /** The signed-in user's identity, as the identity provider reports it. */
  type User = string

  /** `App`'s two state fields. */
  class App {
    var user: Option<User>
    var loading: bool

    constructor ()
      ensures user == None && loading
    {
      user := None;
      loading := true;
    }

    /** The `onAuthStateChanged` callback. */
    method OnAuthStateChanged(currentUser: Option<User>)
      modifies this
      ensures user == currentUser && !loading
    {
      user := currentUser;
      loading := false;
    }

    /** What `App` renders for `path` in its present state. */
    function CurrentView(path: string): (v: View)
      reads this
      ensures loading ==> v == Spinner
      ensures v == DashboardPage ==> user.Some?
      ensures v == LoginForm || v == SignUpForm ==> user.None?
    {
      Route(path, user.Some?, loading)
    }
  }

  /** Until the first authentication report, every path shows the spinner; after it, the
      dashboard is shown to a reported user and the login form to nobody. */
  method AuthSettles(report: Option<User>) returns (before: View, after: View)
    ensures before == Spinner
    ensures after == (if report.Some? then DashboardPage else Redirect("/login"))
  {
    var app := new App();
    before := app.CurrentView("/dashboard");
    app.OnAuthStateChanged(report);
    after := app.CurrentView("/dashboard");
    GuardedRoutes(report.Some?);
  }
}
