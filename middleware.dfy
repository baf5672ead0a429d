/** The request guard that runs before every page: a pure function of the
    decoded session token (if any) and the requested path, answering with a
    redirect or with "continue to the page". */
module Middleware {
  import opened Common
  import opened Users

  /** What the JWT carries that the guard reads. */
  datatype Token = Token(role: Role)

  datatype Response = Redirect(target: string) | Next

  const LoginPath := "/auth/login"
  const RegisterPath := "/auth/register"
  const DashboardPath := "/dashboard"
  const AdminPath := "/admin"

  /** `pathname.startsWith(prefix)`. */
  predicate StartsWith(path: string, prefix: string)
  {
    prefix <= path
  }

  predicate Protected(path: string)
  {
    StartsWith(path, DashboardPath) || StartsWith(path, AdminPath)
  }

  predicate IsAuthPage(path: string)
  {
    path == LoginPath || path == RegisterPath
  }

  /** Where a signed-in user belongs: students on the dashboard, every other
      role on the admin area. */
  function Home(role: Role): (p: string)
    ensures p == DashboardPath <==> role == Student
    ensures p == AdminPath <==> role != Student
  {
    if role == Student then DashboardPath else AdminPath
  }

  predicate CrossRole(role: Role, path: string)
  {
    (role == Student && StartsWith(path, AdminPath))
    || (role == Instructor && StartsWith(path, DashboardPath))
  }

  /** None of the three landing pages lies inside another one's namespace. */
  lemma LandingPagesApart()
    ensures !StartsWith(LoginPath, DashboardPath) && !StartsWith(LoginPath, AdminPath)
    ensures !StartsWith(DashboardPath, AdminPath) && !StartsWith(AdminPath, DashboardPath)
    ensures !StartsWith(RegisterPath, DashboardPath) && !StartsWith(RegisterPath, AdminPath)
  {
    assert LoginPath[1] != DashboardPath[1] && LoginPath[2] != AdminPath[2];
    assert RegisterPath[1] != DashboardPath[1] && RegisterPath[2] != AdminPath[2];
    assert DashboardPath[1] != AdminPath[1];
  }

  /** The guard. Redirect targets are paths on the request's own origin. */
  function Guard(token: Option<Token>, path: string): (r: Response)
    // a redirect never points back at the page that was asked for
    ensures r.Redirect? ==> r.target != path
    // every redirect lands on one of three fixed pages
    ensures r.Redirect? ==> r.target in {LoginPath, DashboardPath, AdminPath}
    // only signed-in users are sent home, and then to their own home
    ensures r.Redirect? && token.Some? ==> r.target == Home(token.value.role)
    ensures r.Redirect? && token.None? ==> r.target == LoginPath
  {
    LandingPagesApart();
    if token.None? && Protected(path) then
      Redirect(LoginPath)
    else if token.Some? && IsAuthPage(path) then
      Redirect(Home(token.value.role))
    else if token.Some? && CrossRole(token.value.role, path) then
      Redirect(Home(token.value.role))
    else
      Next
  }

  /** Without a token, exactly the dashboard and admin namespaces are closed,
      and they send the visitor to the login page. */
  lemma AnonymousRequests(path: string)
    ensures Guard(None, path) == (if Protected(path) then Redirect(LoginPath) else Next)
  {
  }

  /** With a token, the login and registration pages send the user home. */
  lemma SignedInOnAuthPages(t: Token, path: string)
    requires IsAuthPage(path)
    ensures Guard(Some(t), path) == Redirect(if t.role == Student then DashboardPath else AdminPath)
  {
  }

  /** A student asking for anything in the admin namespace is sent to the
      dashboard. */
  lemma StudentKeptOutOfAdmin(path: string)
    requires StartsWith(path, AdminPath)
    ensures Guard(Some(Token(Student)), path) == Redirect(DashboardPath)
  {
  }

  /** An instructor asking for anything in the dashboard namespace is sent to
      the admin area; this includes the instructor's own pages under
      `/dashboard/instructor`. */
  lemma InstructorKeptOutOfDashboard(path: string)
    requires StartsWith(path, DashboardPath)
    ensures Guard(Some(Token(Instructor)), path) == Redirect(AdminPath)
  {
  }

  /** So an instructor can never open the instructor dashboard pages
      themselves. */
  lemma InstructorDashboardUnreachable(rest: string)
    ensures Guard(Some(Token(Instructor)), "/dashboard/instructor" + rest) == Redirect(AdminPath)
  {
    assert StartsWith("/dashboard/instructor" + rest, DashboardPath);
  }

  /** An administrator is never cross-redirected: only the login and
      registration pages turn an admin away. */
  lemma AdminOnlyLeavesAuthPages(path: string)
    ensures Guard(Some(Token(Admin)), path) == (if IsAuthPage(path) then Redirect(AdminPath) else Next)
  {
  }

  /** The guard redirects exactly in the three cases above; everything else
      passes through unchanged, anonymous requests to public pages included. */
  lemma RedirectsExactly(token: Option<Token>, path: string)
    ensures Guard(token, path).Redirect? <==>
      (token.None? && Protected(path))
      || (token.Some? && (IsAuthPage(path) || CrossRole(token.value.role, path)))
  {
  }

  /** One redirect, then pass-through: following a redirect with the same
      token reaches a page the guard lets through, so there are no loops. */
  lemma NoRedirectLoop(token: Option<Token>, path: string)
    ensures Guard(token, path).Redirect? ==> Guard(token, Guard(token, path).target) == Next
  {
    if Guard(token, path).Redirect? {
      LandingPagesApart();
    }
  }
}
