/** The current-user endpoint: the status it answers with, and the profile
    projection it returns, in which `emailVerified` becomes a boolean. The
    server session and the lookup are inputs; either may raise. */
module CurrentUser {
  import opened Common
  import opened Users

  /** `session.user` as far as the handler reads it. */
  datatype SessionIdentity = SessionIdentity(email: Option<string>)

  datatype ServerSession = ServerSession(user: Option<SessionIdentity>)

  /** A call into a library that either returns a value or raises. */
  datatype Call<T> = Raises(error: Thrown) | Returns(value: T)

  /** The selected columns, with `emailVerified` as a boolean; no password. */
  datatype Profile = Profile(
    id: string,
    role: Role,
    name: Option<string>,
    email: string,
    emailVerified: bool,
    agreedToTerms: bool,
    avatar: Option<string>,
    bio: Option<string>,
    verificationToken: Option<string>,
    resetToken: Option<string>,
    resetTokenExpires: Option<Instant>,
    createdAt: Instant,
    updatedAt: Instant,
    deletedAt: Option<Instant>)

  datatype Body = ProfileBody(profile: Profile) | ErrorBody(error: string, details: Option<string>)

  datatype Response = Response(status: int, body: Body)

  /** `{ ...user, emailVerified: user.emailVerified !== null }` over the
      selected columns. */
  function Project(u: User): (p: Profile)
    ensures p.emailVerified <==> u.emailVerified.Some?
    ensures p.id == u.id && p.role == u.role && p.name == u.name && p.email == u.email
    ensures p.agreedToTerms == u.agreedToTerms && p.avatar == u.avatar && p.bio == u.bio
    ensures p.verificationToken == u.verificationToken && p.resetToken == u.resetToken
    ensures p.resetTokenExpires == u.resetTokenExpires
    ensures p.createdAt == u.createdAt && p.updatedAt == u.updatedAt && p.deletedAt == u.deletedAt
  {
    Profile(u.id, u.role, u.name, u.email, u.emailVerified.Some?, u.agreedToTerms, u.avatar, u.bio,
            u.verificationToken, u.resetToken, u.resetTokenExpires, u.createdAt, u.updatedAt, u.deletedAt)
  }

  /** `session?.user?.email`, when it is truthy. */
  function SessionEmail(session: Option<ServerSession>): (r: Option<string>)
    ensures r.Some? <==> session.Some? && session.value.user.Some? && Truthy(session.value.user.value.email)
    ensures r.Some? ==> r.value != "" && r == session.value.user.value.email
  {
    if session.Some? && session.value.user.Some? && Truthy(session.value.user.value.email)
    then session.value.user.value.email
    else None
  }

  function ServerError(e: Thrown): (r: Response)
    ensures r.status == 500 && r.body.ErrorBody? && r.body.error == "Internal server error"
    ensures r.body.details == Some(if e.ErrorObject? then e.message else "Unknown error")
  {
    Response(500, ErrorBody("Internal server error",
      Some(match e case ErrorObject(m) => m case NonError => "Unknown error")))
  }

  /** The handler. `session` is what `getServerSession` did; the
      `findUnique` on the session's email reads `users`, or raises the error
      in `lookupRaises`. */
  function Handle(verb: string, session: Call<Option<ServerSession>>, users: UserTable, lookupRaises: Option<Thrown>)
    : (r: Response)
    ensures r.status in {200, 401, 404, 405, 500}
    ensures verb != "GET" <==> r.status == 405
    ensures r.status == 401 <==> verb == "GET" && session.Returns? && SessionEmail(session.value).None?
    ensures r.status == 404 <==>
      verb == "GET" && session.Returns? && SessionEmail(session.value).Some?
      && lookupRaises.None? && SessionEmail(session.value).value !in users
    ensures r.status == 200 <==>
      verb == "GET" && session.Returns? && SessionEmail(session.value).Some?
      && lookupRaises.None? && SessionEmail(session.value).value in users
    ensures r.status == 200 ==> r.body == ProfileBody(Project(users[SessionEmail(session.value).value]))
    ensures r.status == 401 ==> r.body == ErrorBody("Unauthorized", None)
    ensures r.status == 404 ==> r.body == ErrorBody("User not found", None)
    ensures r.status == 500 ==> r.body.ErrorBody? && r.body.error == "Internal server error"
    ensures verb != "GET" ==> r == Response(405, ErrorBody("Method not allowed", None))
    ensures verb == "GET" && session.Raises? ==> r == ServerError(session.error)
    ensures verb == "GET" && session.Returns? && SessionEmail(session.value).Some? && lookupRaises.Some?
      ==> r == ServerError(lookupRaises.value)
  {
    if verb != "GET" then Response(405, ErrorBody("Method not allowed", None))
    else match session
      case Raises(e) => ServerError(e)
      case Returns(s) =>
        var email := SessionEmail(s);
        if email.None? then Response(401, ErrorBody("Unauthorized", None))
        else if lookupRaises.Some? then ServerError(lookupRaises.value)
        else if email.value !in users then Response(404, ErrorBody("User not found", None))
        else Response(200, ProfileBody(Project(users[email.value])))
  }

  /** On 200 the profile's `emailVerified` is true exactly when the stored
      column is not null, and the profile is the row of the session's email. */
  lemma ProfileOfSessionUser(verb: string, s: ServerSession, users: UserTable)
    requires EmailKeyed(users)
    requires Handle(verb, Returns(Some(s)), users, None).status == 200
    ensures var p := Handle(verb, Returns(Some(s)), users, None).body.profile;
      && p.email == s.user.value.email.value
      && (p.emailVerified <==> users[p.email].emailVerified.Some?)
  {
  }

  /** A raised error's message is reported as `details`; anything else that
      is thrown is reported as "Unknown error". */
  lemma ErrorDetails(verb: string, session: ServerSession, users: UserTable, e: Thrown)
    requires verb == "GET" && SessionEmail(Some(session)).Some?
    ensures Handle(verb, Returns(Some(session)), users, Some(e)).body.details
         == Some(if e.ErrorObject? then e.message else "Unknown error")
  {
  }
}
