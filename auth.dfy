/** The credentials sign-in configuration: the `authorize` decision of the
    credentials provider, and the `jwt` and `session` callbacks that copy the
    user's id and role into the token and then into the session. The bcrypt
    comparison is the parameter `compare(password, hash)`. */
module Auth {
  import opened Common
  import opened Users

  /** The submitted form; either field may be missing. */
  datatype Credentials = Credentials(email: Option<string>, password: Option<string>)

  /** What `authorize` hands back on success. It has no password field. */
  datatype AuthUser = AuthUser(id: string, email: string, name: Option<string>, role: Role)

  function PublicProfile(u: User): (p: AuthUser)
    ensures p.id == u.id && p.email == u.email && p.name == u.name && p.role == u.role
  {
    AuthUser(u.id, u.email, u.name, u.role)
  }

  /** Both fields are present and non-empty. */
  predicate Complete(credentials: Option<Credentials>)
  {
    credentials.Some? && Truthy(credentials.value.email) && Truthy(credentials.value.password)
  }

  /** The sign-in is accepted: a row has exactly the submitted email, and the
      submitted password matches that row's hash. */
  predicate Accepted(credentials: Option<Credentials>, users: UserTable, compare: (string, string) -> bool)
  {
    Complete(credentials)
    && credentials.value.email.value in users
    && compare(credentials.value.password.value, users[credentials.value.email.value].password)
  }

  function Authorize(credentials: Option<Credentials>, users: UserTable, compare: (string, string) -> bool)
    : (r: Option<AuthUser>)
    ensures r.Some? <==> Accepted(credentials, users, compare)
    ensures r.Some? ==> r.value == PublicProfile(users[credentials.value.email.value])
  {
    if !Complete(credentials) then None
    else
      var email, password := credentials.value.email.value, credentials.value.password.value;
      if email !in users then None
      else if !compare(password, users[email].password) then None
      else Some(PublicProfile(users[email]))
  }

  /** A missing or empty field is refused before any lookup. */
  lemma IncompleteRefused(credentials: Option<Credentials>, users: UserTable, compare: (string, string) -> bool)
    requires !Complete(credentials)
    ensures Authorize(credentials, users, compare) == None
  {
  }

  /** The lookup is by the exact submitted string: an email with no row,
      whatever its case, is refused. */
  lemma UnknownEmailRefused(email: string, password: string, users: UserTable, compare: (string, string) -> bool)
    requires email !in users
    ensures Authorize(Some(Credentials(Some(email), Some(password))), users, compare) == None
  {
  }

  /** An unknown email and a wrong password give the same answer, so a caller
      cannot tell them apart. */
  lemma RefusalsIndistinguishable(
    unknown: string, known: string, p1: string, p2: string, users: UserTable, compare: (string, string) -> bool)
    requires unknown !in users && known in users && !compare(p2, users[known].password)
    ensures Authorize(Some(Credentials(Some(unknown), Some(p1))), users, compare)
         == Authorize(Some(Credentials(Some(known), Some(p2))), users, compare)
  {
  }

  /** On a table whose rows are keyed by their email, the accepted user is the
      row with the submitted email. */
  lemma AuthorizedEmailIsSubmitted(credentials: Option<Credentials>, users: UserTable, compare: (string, string) -> bool)
    requires EmailKeyed(users)
    ensures Authorize(credentials, users, compare).Some? ==>
      Authorize(credentials, users, compare).value.email == credentials.value.email.value
  {
  }

  // ---------------------------------------------------------------------
  // Token and session callbacks

  /** The decoded JWT. `id` and `role` are only there once the `jwt` callback
      has copied them. */
  class Jwt {
    var id: Option<string>
    var role: Option<Role>
    var name: Option<string>
    var email: Option<string>
    var picture: Option<string>
    var sub: Option<string>

    constructor (name: Option<string>, email: Option<string>, picture: Option<string>, sub: Option<string>)
      ensures this.id == None && this.role == None
      ensures this.name == name && this.email == email && this.picture == picture && this.sub == sub
    {
      this.id := None;
      this.role := None;
      this.name := name;
      this.email := email;
      this.picture := picture;
      this.sub := sub;
    }
  }

  /** `session.user` as the client receives it. */
  class SessionUser {
    var id: Option<string>
    var role: Option<Role>
    var name: Option<string>
    var email: Option<string>
    var image: Option<string>

    constructor (name: Option<string>, email: Option<string>, image: Option<string>)
      ensures this.id == None && this.role == None
      ensures this.name == name && this.email == email && this.image == image
    {
      this.id := None;
      this.role := None;
      this.name := name;
      this.email := email;
      this.image := image;
    }
  }

  class Session {
    var user: SessionUser?
    var expires: string

    constructor (user: SessionUser?, expires: string)
      ensures this.user == user && this.expires == expires
    {
      this.user := user;
      this.expires := expires;
    }
  }

  /** The `jwt` callback: with a user, stamp its role and id on the token in
      place; the token's other claims are left as they were. */
  method JwtCallback(token: Jwt, user: Option<AuthUser>) returns (r: Jwt)
    modifies token
    ensures r == token
    ensures user.Some? ==> token.role == Some(user.value.role) && token.id == Some(user.value.id)
    ensures user.None? ==> token.role == old(token.role) && token.id == old(token.id)
    ensures token.name == old(token.name) && token.email == old(token.email)
    ensures token.picture == old(token.picture) && token.sub == old(token.sub)
  {
    if user.Some? {
      token.role := Some(user.value.role);
      token.id := Some(user.value.id);
    }
    r := token;
  }

  /** The `session` callback: when the session has a user object, copy the
      token's role and id into it in place. */
  method SessionCallback(session: Session, token: Jwt) returns (r: Session)
    modifies session.user
    ensures r == session
    ensures session.user != null ==> session.user.role == token.role && session.user.id == token.id
    ensures session.user != null ==>
      session.user.name == old(session.user.name) && session.user.email == old(session.user.email)
      && session.user.image == old(session.user.image)
  {
    if session.user != null {
      session.user.role := token.role;
      session.user.id := token.id;
    }
    r := session;
  }

  /** The whole sign-in: `authorize`, then `jwt` with its answer, then
      `session` from the token. When sign-in is accepted and the session has
      a user object, that object ends up with the stored user's role and id. */
  method SignIn(
    credentials: Option<Credentials>, users: UserTable, compare: (string, string) -> bool,
    token: Jwt, session: Session)
    returns (user: Option<AuthUser>)
    modifies token, session.user
    ensures user == Authorize(credentials, users, compare)
    ensures user.Some? && session.user != null ==>
      var stored := users[credentials.value.email.value];
      session.user.role == Some(stored.role) && session.user.id == Some(stored.id)
    ensures user.None? ==> token.role == old(token.role) && token.id == old(token.id)
  {
    user := Authorize(credentials, users, compare);
    var t := JwtCallback(token, user);
    var s := SessionCallback(session, t);
  }
}
