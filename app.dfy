/** The application shell: who is signed in, and which page each address
    shows. Public pages are open to everyone (the login and signup pages only
    while nobody is signed in); the five management pages and the dashboard
    need a signed-in user; any other address goes back to the landing page. */
module App {
  import opened Records
  import Signup

  datatype Page =
    | Landing | Login | SignupPage
    | Dashboard | Hostels | Rooms | Tenants | Finances | Reports

  /** What a route element does: render a page, or `<Navigate to=… replace />`. */
  datatype Outcome = Render(page: Page) | Redirect(to: string)

  predicate IsProtected(p: Page)
  {
    p.Dashboard? || p.Hostels? || p.Rooms? || p.Tenants? || p.Finances? || p.Reports?
  }

  /** The page behind each protected address. */
  function ProtectedPage(path: string): Option<Page>
  {
    if path == "/dashboard" then Some(Dashboard)
    else if path == "/hostels" then Some(Hostels)
    else if path == "/rooms" then Some(Rooms)
    else if path == "/tenants" then Some(Tenants)
    else if path == "/finances" then Some(Finances)
    else if path == "/reports" then Some(Reports)
    else None
  }

  /** The `<Routes>` table, for a given sign-in state. */
  function Resolve(path: string, authenticated: bool): Outcome
  {
    if path == "/" then Render(Landing)
    else if path == "/login" then
      if authenticated then Redirect("/dashboard") else Render(Login)
    else if path == "/signup" then
      if authenticated then Redirect("/dashboard") else Render(SignupPage)
    else if ProtectedPage(path).Some? then
      if authenticated then Render(ProtectedPage(path).value) else Redirect("/login")
    else Redirect("/")
  }

  /** A protected page is rendered only for a signed-in user; for anyone
      else its address sends them to the login page. */
  lemma ProtectedNeedsSignIn(path: string, authenticated: bool)
    ensures Resolve(path, authenticated).Render? && IsProtected(Resolve(path, authenticated).page)
            ==> authenticated
    ensures ProtectedPage(path).Some? ==>
              Resolve(path, authenticated) ==
                (if authenticated then Render(ProtectedPage(path).value) else Redirect("/login"))
  {
  }

  /** A signed-in user asking for the login or signup page lands on the
      dashboard; signed out, those pages and the landing page render. */
  lemma PublicPages(authenticated: bool)
    ensures Resolve("/", authenticated) == Render(Landing)
    ensures Resolve("/login", authenticated) == (if authenticated then Redirect("/dashboard") else Render(Login))
    ensures Resolve("/signup", authenticated) == (if authenticated then Redirect("/dashboard") else Render(SignupPage))
  {
  }

  /** Every address outside the table goes to the landing page, whoever
      asks. */
  lemma UnknownAddressGoesHome(path: string, authenticated: bool)
    requires path !in {"/", "/login", "/signup", "/dashboard", "/hostels", "/rooms", "/tenants", "/finances", "/reports"}
    ensures Resolve(path, authenticated) == Redirect("/")
  {
  }

  /** Redirects never chain: the address a redirect names always renders. */
  lemma AtMostOneRedirect(path: string, authenticated: bool)
    ensures Resolve(path, authenticated).Redirect? ==>
              Resolve(Resolve(path, authenticated).to, authenticated).Render?
  {
    var o := Resolve(path, authenticated);
    if o.Redirect? {
      assert o.to == "/" || (o.to == "/login" && !authenticated) || (o.to == "/dashboard" && authenticated);
      assert ProtectedPage("/") == None && ProtectedPage("/login") == None;
      assert ProtectedPage("/dashboard") == Some(Dashboard);
    }
  }

  /** The page finally on screen after following at most one redirect. It is
      never a protected page for a visitor, and never the login or signup
      page for a signed-in user. */
  function Destination(path: string, authenticated: bool): (p: Page)
    ensures Resolve(path, authenticated) == Render(p) ||
            (Resolve(path, authenticated).Redirect? &&
             Resolve(Resolve(path, authenticated).to, authenticated) == Render(p))
    ensures IsProtected(p) ==> authenticated
    ensures authenticated ==> p != Login && p != SignupPage
  {
    AtMostOneRedirect(path, authenticated);
    var o := Resolve(path, authenticated);
    if o.Render? then o.page
    else Resolve(o.to, authenticated).page
  }

  /** The sign-in state held by App. */
  class Session {
    var isAuthenticated: bool
    var user: Option<Signup.User>

    /** Someone is signed in exactly when a user object is held. */
    predicate Valid()
      reads this
    {
      isAuthenticated <==> user.Some?
    }

    constructor ()
      ensures Valid() && !isAuthenticated && user == None
    {
      isAuthenticated := false;
      user := None;
    }

    method HandleLogin(userData: Signup.User)
      modifies this
      ensures Valid() && isAuthenticated && user == Some(userData)
    {
      isAuthenticated := true;
      user := Some(userData);
    }

    /** Called by the signup wizard with the account it created. */
    method HandleSignup(userData: Signup.User)
      modifies this
      ensures Valid() && isAuthenticated && user == Some(userData)
    {
      isAuthenticated := true;
      user := Some(userData);
    }

    method HandleLogout()
      modifies this
      ensures Valid() && !isAuthenticated && user == None
    {
      isAuthenticated := false;
      user := None;
    }

    /** Renders an address: the route's outcome and the `user` prop handed
        to the page. Every protected page receives the signed-in user. */
    method Visit(path: string) returns (o: Outcome, shown: Option<Signup.User>)
      requires Valid()
      ensures o == Resolve(path, isAuthenticated)
      ensures o.Render? && IsProtected(o.page) ==> shown.Some? && shown == user
      ensures !(o.Render? && IsProtected(o.page)) ==> shown.None?
    {
      ProtectedNeedsSignIn(path, isAuthenticated);
      o := Resolve(path, isAuthenticated);
      if o.Render? && IsProtected(o.page) {
        shown := user;
      } else {
        shown := None;
      }
    }
  }
}
