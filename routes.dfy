/** The route table of the application shell: which page a path renders, or where it
    redirects, given whether a user is signed in. */
module Routes {
  import Auth

  /** A URL path as its segments: "/" is [], "/student/42" is ["student", "42"]. */
  type Path = seq<string>

  const LoginPath: Path := ["login"]
  const RootPath: Path := []
  const DashboardPath: Path := ["dashboard"]
  const PaymentsPath: Path := ["payments"]

  datatype Page = LoginPage | DashboardPage | StudentProfilePage(studentId: string) | PaymentDashboardPage

  /** What a route's element does: render a page (inside the shared `Layout` or not), or
      navigate elsewhere, replacing the history entry. */
  datatype Element = Render(page: Page, inLayout: bool) | Redirect(to: Path)

  /** Every page except the login page needs a signed-in user. */
  predicate IsProtected(p: Page)
  {
    !p.LoginPage?
  }

  /** The `:studentId` pattern: a second segment after "student", which must not be empty. */
  predicate IsStudentPath(path: Path)
  {
    |path| == 2 && path[0] == "student" && path[1] != ""
  }

  /** The paths one of the listed routes matches; anything else falls to the catch-all. */
  predicate IsListed(path: Path)
  {
    path == LoginPath || path == RootPath || path == DashboardPath || path == PaymentsPath || IsStudentPath(path)
  }

  /** The `<Routes>` table. No protected page renders for a signed-out visitor, the login page
      renders only for one, and a page sits inside `Layout` exactly when it is protected. */
  function Resolve(path: Path, isAuthenticated: bool): (e: Element)
    ensures e.Render? && IsProtected(e.page) ==> isAuthenticated
    ensures e.Render? && e.page == LoginPage ==> !isAuthenticated
    ensures e.Render? ==> (e.inLayout <==> IsProtected(e.page))
    ensures e.Redirect? ==> e.to in {LoginPath, RootPath, DashboardPath}
    ensures !IsListed(path) ==> e == Redirect(RootPath)
  {
    if path == LoginPath then
      if isAuthenticated then Redirect(DashboardPath) else Render(LoginPage, false)
    else if path == RootPath then
      if isAuthenticated then Redirect(DashboardPath) else Redirect(LoginPath)
    else if path == DashboardPath then
      if isAuthenticated then Render(DashboardPage, true) else Redirect(LoginPath)
    else if IsStudentPath(path) then
      if isAuthenticated then Render(StudentProfilePage(path[1]), true) else Redirect(LoginPath)
    else if path == PaymentsPath then
      if isAuthenticated then Render(PaymentDashboardPage, true) else Redirect(LoginPath)
    else
      Redirect(RootPath)
  }

  /** The element reached from `path` after following at most `hops` redirects. However many
      redirects are followed, no protected page is reached signed out, the login page is reached
      only signed out, and a reached page is inside `Layout` exactly when it is protected. */
  function Follow(path: Path, isAuthenticated: bool, hops: nat): (e: Element)
    ensures e.Render? && IsProtected(e.page) ==> isAuthenticated
    ensures e.Render? && e.page == LoginPage ==> !isAuthenticated
    ensures e.Render? ==> (e.inLayout <==> IsProtected(e.page))
    decreases hops
  {
    match Resolve(path, isAuthenticated)
    case Redirect(to) => if hops == 0 then Redirect(to) else Follow(to, isAuthenticated, hops - 1)
    case Render(p, l) => Render(p, l)
  }

  /** Signed out, every protected path redirects to the login page. */
  lemma SignedOutProtectedRedirectsToLogin(path: Path)
    requires path == DashboardPath || path == PaymentsPath || IsStudentPath(path)
    ensures Resolve(path, false) == Redirect(LoginPath)
  {
  }

  /** Signed out, /login renders the login page outside `Layout` and / redirects to /login. */
  lemma SignedOutEntry()
    ensures Resolve(LoginPath, false) == Render(LoginPage, false)
    ensures Resolve(RootPath, false) == Redirect(LoginPath)
  {
  }

  /** Signed in, the login page and the root both redirect to the dashboard. */
  lemma SignedInEntryRedirectsToDashboard(path: Path)
    requires path == LoginPath || path == RootPath
    ensures Resolve(path, true) == Redirect(DashboardPath)
  {
  }

  /** Signed in, each protected path renders its page inside `Layout`. */
  lemma SignedInRendersProtectedPage(path: Path)
    requires path == DashboardPath || path == PaymentsPath || IsStudentPath(path)
    ensures Resolve(path, true).Render? && Resolve(path, true).inLayout
    ensures path == DashboardPath ==> Resolve(path, true).page == DashboardPage
    ensures path == PaymentsPath ==> Resolve(path, true).page == PaymentDashboardPage
    ensures IsStudentPath(path) ==> Resolve(path, true).page == StudentProfilePage(path[1])
  {
  }

  /** However many redirects are followed, a signed-out visitor is never shown a protected page. */
  lemma {:induction false} SignedOutNeverSeesProtected(path: Path, hops: nat)
    ensures Follow(path, false, hops).Render? ==> !IsProtected(Follow(path, false, hops).page)
    decreases hops
  {
    if Resolve(path, false).Redirect? && hops > 0 {
      SignedOutNeverSeesProtected(Resolve(path, false).to, hops - 1);
    }
  }

  /** Redirects terminate: from any path, two redirects at most reach a rendered page. Signed
      out that page is always the login page; signed in it is never the login page, and an
      unlisted path lands on the dashboard. */
  lemma SettlesWithinTwoRedirects(path: Path, isAuthenticated: bool)
    ensures Follow(path, isAuthenticated, 2).Render?
    ensures !isAuthenticated ==> Follow(path, isAuthenticated, 2) == Render(LoginPage, false)
    ensures isAuthenticated ==> Follow(path, isAuthenticated, 2).page != LoginPage
    ensures isAuthenticated && !IsListed(path) ==> Follow(path, isAuthenticated, 2) == Render(DashboardPage, true)
  {
    var e := Resolve(path, isAuthenticated);
    if e.Redirect? {
      var e2 := Resolve(e.to, isAuthenticated);
      assert e2.Redirect? ==> Resolve(e2.to, isAuthenticated).Render?;
    }
  }

  /** The bound of two is tight: an unlisted path has not settled after one redirect. */
  lemma TwoRedirectsNeeded(isAuthenticated: bool)
    ensures Follow(["unknown"], isAuthenticated, 1).Redirect?
  {
    assert !IsListed(["unknown"]);
  }

  /** After a logout, whatever the session was, every path ends on the login page. */
  lemma LogoutLeadsToLogin(s: Auth.AuthState, path: Path)
    ensures Follow(path, Auth.Reduce(s, Auth.AuthAction.Logout).isAuthenticated, 2) == Render(LoginPage, false)
  {
    SettlesWithinTwoRedirects(path, false);
  }
}
