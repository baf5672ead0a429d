/** The client-side page gate: whether a page is wrapped in `Auth`, and what
    `Auth` renders and where its effect navigates, as a function of the
    session hook's status and data and the page's required role. The
    `router.push` of the effect is the returned navigation. */
module App {
  import opened Common
  import opened Users

  /** A page component's `auth` property: missing, a bare boolean (the
      dashboard pages set `auth = true`), or an object `{ required, role? }`. */
  datatype PageAuth = NoAuth | AuthFlag(flag: bool) | AuthObject(required: bool, role: Option<string>)

  datatype Status = Loading | Authenticated | Unauthenticated

  /** What the session hook's `data` holds. */
  datatype ClientSession = ClientSession(user: Option<ClientUser>)
  datatype ClientUser = ClientUser(role: Option<Role>)

  datatype View = LoadingView | UnauthorizedView | Children

  datatype Gate = Gate(view: View, navigate: Option<string>)

  /** `Component.auth?.required`: only an object with a true `required` can
      have it; a boolean has no such property. */
  predicate Wraps(auth: PageAuth)
  {
    auth.AuthObject? && auth.required
  }

  function RequiredRole(auth: PageAuth): Option<string>
  {
    if auth.AuthObject? then auth.role else None
  }

  /** `session?.user?.role !== requiredRole`, comparing the role's spelling
      with the required string. */
  predicate RoleDiffers(session: Option<ClientSession>, required: string)
  {
    !(session.Some? && session.value.user.Some? && session.value.user.value.role.Some?
      && RoleName(session.value.user.value.role.value) == required)
  }

  /** The effect: nothing while loading, `/login` without a session,
      `/unauthorized` when a required role is not the session's. */
  function Navigation(status: Status, session: Option<ClientSession>, requiredRole: Option<string>)
    : (r: Option<string>)
    ensures status == Loading ==> r == None
    ensures r == Some("/login") <==> status != Loading && session.None?
    ensures r == Some("/unauthorized") <==>
      status != Loading && session.Some? && Truthy(requiredRole) && RoleDiffers(session, requiredRole.value)
    ensures r.Some? ==> r.value in {"/login", "/unauthorized"}
  {
    if status == Loading then None
    else if session.None? then Some("/login")
    else if Truthy(requiredRole) && RoleDiffers(session, requiredRole.value) then Some("/unauthorized")
    else None
  }

  /** What `Auth` renders. */
  function Render(status: Status, session: Option<ClientSession>, requiredRole: Option<string>): (v: View)
    ensures status == Loading <==> v == LoadingView
    ensures v == UnauthorizedView <==>
      status != Loading && Truthy(requiredRole) && RoleDiffers(session, requiredRole.value)
    // with no role required, the page shows once loading is over, with or without a session
    ensures status != Loading && !Truthy(requiredRole) ==> v == Children
  {
    if status == Loading then LoadingView
    else if Truthy(requiredRole) && RoleDiffers(session, requiredRole.value) then UnauthorizedView
    else Children
  }

  /** `Auth`: what it renders together with where its effect navigates. The
      two agree: a visitor turned away with a session is sent to
      `/unauthorized`, and a page shown to a session navigates nowhere. */
  function AuthGate(status: Status, session: Option<ClientSession>, requiredRole: Option<string>): (g: Gate)
    ensures status == Loading <==> g == Gate(LoadingView, None)
    ensures g.navigate == Some("/unauthorized") <==> g.view == UnauthorizedView && session.Some?
    ensures g.navigate == Some("/login") <==> status != Loading && session.None?
    ensures g.view == Children && session.Some? ==> g.navigate.None?
  {
    Gate(Render(status, session, requiredRole), Navigation(status, session, requiredRole))
  }

  /** `AuthWrapper`: a wrapped page goes through the gate, any other page is
      rendered as it is, with no navigation. */
  function Page(auth: PageAuth, status: Status, session: Option<ClientSession>): (g: Gate)
    ensures !Wraps(auth) ==> g == Gate(Children, None)
    ensures Wraps(auth) ==> g == AuthGate(status, session, auth.role)
  {
    if Wraps(auth) then AuthGate(status, session, RequiredRole(auth)) else Gate(Children, None)
  }

  /** The dashboard pages set `auth = true`, so they are never gated, whatever
      the session. */
  lemma FlaggedPagesUngated(status: Status, session: Option<ClientSession>)
    ensures Page(AuthFlag(true), status, session) == Gate(Children, None)
  {
  }

  /** When the session's role is the required one, the page shows and nothing
      navigates. */
  lemma MatchingRoleShowsPage(status: Status, user: ClientUser, role: Role)
    requires status != Loading && user.role == Some(role)
    ensures AuthGate(status, Some(ClientSession(Some(user))), Some(RoleName(role))) == Gate(Children, None)
  {
  }

  /** A signed-in user whose role differs from the required one is shown
      "Unauthorized" and sent to `/unauthorized`. */
  lemma WrongRoleTurnedAway(status: Status, session: ClientSession, required: string)
    requires status != Loading && required != "" && RoleDiffers(Some(session), required)
    ensures AuthGate(status, Some(session), Some(required)) == Gate(UnauthorizedView, Some("/unauthorized"))
  {
  }

  /** Without a session and with no role required, the gate renders the page
      while it navigates to `/login`. */
  lemma NoSessionNoRoleRendersAndLeaves(status: Status, requiredRole: Option<string>)
    requires status != Loading && !Truthy(requiredRole)
    ensures AuthGate(status, None, requiredRole) == Gate(Children, Some("/login"))
  {
  }
}
