/** The registration endpoint over the user table. The table is the field of
    a `UserStore` object that `Register` updates in place; the pure function
    `Handle` says what one request does to the table and what it answers, and
    the lemmas below are about `Handle`. bcrypt, the database's own failures,
    the id it assigns, the clock and the automatic sign-in are inputs, bundled
    in `Environment`. */
module Registration {
  import opened Common
  import opened Users
  import Auth

  /** `req.method` (as `verb`) and the four body fields. */
  datatype Request = Request(
    verb: string, name: Option<string>, email: Option<string>, password: Option<string>, role: Option<string>)

  /** bcrypt's cost factor. */
  const HashRounds: nat := 12

  const DefaultRole := "STUDENT"
  const DefaultRedirect := "/dashboard"

  /** What `signIn(...)` resolves to: maybe nothing, maybe an object with an
      `error` and a `url`. */
  datatype SignInResult = SignInResult(error: Option<string>, url: Option<string>)

  datatype AutoLogin = SignInThrew | SignInReturned(result: Option<SignInResult>)

  datatype Environment = Environment(
    hash: (string, nat) -> string, // bcrypt `hash(password, rounds)`
    newId: string,                 // the id the database assigns to a new row
    now: Instant,                  // the database clock for `createdAt`/`updatedAt`
    lookupFails: bool,             // `findUnique` raises
    createFails: bool,             // `create` raises for a reason of its own (connection, ...)
    autoLogin: AutoLogin)

  datatype Body =
    | Message(message: string)
    | CreatedWithMessage(user: User, message: string)
    | CreatedWithRedirect(user: User, redirectUrl: string)

  datatype Response = Response(status: int, body: Body)

  datatype Outcome = Outcome(response: Response, users: UserTable)

  const MethodNotAllowed := Response(405, Message("Method not allowed"))
  const MissingFields := Response(400, Message("Missing required fields"))
  const AlreadyExists := Response(400, Message("User already exists"))
  const InternalError := Response(500, Message("Internal server error"))
  const PleaseLogin := "Registration successful. Please login."

  predicate FieldsPresent(req: Request)
  {
    Truthy(req.name) && Truthy(req.email) && Truthy(req.password)
  }

  /** The role column's value: the given role, or STUDENT when none (or an
      empty one) was given. */
  function RoleOf(req: Request): string
  {
    OrElse(req.role, DefaultRole)
  }

  /** The row `create` inserts: name, email, hashed password and role from the
      request; the columns the request does not mention take their defaults. */
  function NewRow(req: Request, role: Role, env: Environment): (u: User)
    requires FieldsPresent(req)
    ensures u.email == req.email.value && u.name == req.name
    ensures u.password == env.hash(req.password.value, HashRounds) && u.role == role && u.id == env.newId
  {
    User(env.newId, req.name, req.email.value, env.hash(req.password.value, HashRounds), role,
         None, false, None, None, None, None, None, env.now, env.now, None)
  }

  /** `create` raises: on its own, when the role is outside the `Role`
      enumeration, or when the assigned id is already a primary key. */
  predicate CreateFails(users: UserTable, req: Request, env: Environment)
  {
    env.createFails || ParseRole(RoleOf(req)).None? || IdInUse(users, env.newId)
  }

  /** The answer after the row has been inserted. */
  function AfterCreate(user: User, autoLogin: AutoLogin): (r: Response)
    ensures autoLogin.SignInReturned? ==> r.status == 201
    ensures autoLogin.SignInThrew? ==> r == InternalError
  {
    match autoLogin
    case SignInThrew => InternalError
    case SignInReturned(result) =>
      if result.Some? && Truthy(result.value.error) then
        Response(201, CreatedWithMessage(user, PleaseLogin))
      else
        var url := if result.Some? then result.value.url else None;
        Response(201, CreatedWithRedirect(user, OrElse(url, DefaultRedirect)))
  }

  function Handle(users: UserTable, req: Request, env: Environment): (o: Outcome)
    ensures o.response.status in {201, 400, 405, 500}
    // every refusal leaves the table as it was
    ensures o.response.status in {400, 405} ==> o.users == users
    ensures req.verb != "POST" ==> o == Outcome(MethodNotAllowed, users)
    ensures req.verb == "POST" && !FieldsPresent(req) ==> o == Outcome(MissingFields, users)
    ensures req.verb == "POST" && FieldsPresent(req) && !env.lookupFails && req.email.value in users
            ==> o == Outcome(AlreadyExists, users)
    // a changed table holds exactly one new row, under the exact submitted email
    ensures o.users != users ==>
      && FieldsPresent(req)
      && req.email.value !in users
      && ParseRole(RoleOf(req)).Some?
      && o.users == users[req.email.value := NewRow(req, ParseRole(RoleOf(req)).value, env)]
    // a creation is always answered with 201, unless the automatic sign-in raised
    ensures o.users != users ==> (o.response.status == 201 <==> env.autoLogin.SignInReturned?)
    ensures o.response.status == 201 ==> o.users != users
    // a request that passes every check inserts its row and is answered after the insert
    ensures req.verb == "POST" && FieldsPresent(req) && !env.lookupFails && req.email.value !in users
            && !CreateFails(users, req, env) ==>
      var row := NewRow(req, ParseRole(RoleOf(req)).value, env);
      o == Outcome(AfterCreate(row, env.autoLogin), users[req.email.value := row])
    ensures WellFormed(users) ==> WellFormed(o.users)
  {
    if req.verb != "POST" then Outcome(MethodNotAllowed, users)
    else if !FieldsPresent(req) then Outcome(MissingFields, users)
    else if env.lookupFails then Outcome(InternalError, users)
    else if req.email.value in users then Outcome(AlreadyExists, users)
    else if CreateFails(users, req, env) then Outcome(InternalError, users)
    else
      var row := NewRow(req, ParseRole(RoleOf(req)).value, env);
      var users' := users[req.email.value := row];
      assert req.email.value in users' && users' != users;
      Outcome(AfterCreate(row, env.autoLogin), users')
  }

  /** A successful creation stores the hash of the submitted password with
      cost 12 and the given role, STUDENT when none was given. */
  lemma CreatedRow(users: UserTable, req: Request, env: Environment)
    requires Handle(users, req, env).response.status == 201
    ensures var row := Handle(users, req, env).users[req.email.value];
      && row.password == env.hash(req.password.value, 12)
      && row.name == req.name
      && RoleName(row.role) == (if Truthy(req.role) then req.role.value else "STUDENT")
  {
  }

  /** The 201 body carries the stored row itself, hash included; with a
      sign-in error it asks to log in, otherwise it gives the redirect,
      `/dashboard` when sign-in named none. */
  lemma CreatedBody(users: UserTable, req: Request, env: Environment)
    requires Handle(users, req, env).response.status == 201
    ensures var o := Handle(users, req, env);
      var row := o.users[req.email.value];
      var result := env.autoLogin.result;
      o.response.body ==
        if result.Some? && Truthy(result.value.error) then CreatedWithMessage(row, PleaseLogin)
        else CreatedWithRedirect(row, OrElse(if result.Some? then result.value.url else None, "/dashboard"))
  {
  }

  /** A failure raised by the database is answered with 500 and changes
      nothing. */
  lemma DatabaseFailureIs500(users: UserTable, req: Request, env: Environment)
    requires req.verb == "POST" && FieldsPresent(req)
    requires env.lookupFails || (req.email.value !in users && CreateFails(users, req, env))
    ensures Handle(users, req, env) == Outcome(InternalError, users)
  {
  }

  /** Registering the same email twice: the first inserts, the second is
      refused with 400 and changes nothing. */
  lemma SecondRegistrationRefused(users: UserTable, req: Request, env1: Environment, env2: Environment)
    requires Handle(users, req, env1).users != users
    requires !env2.lookupFails
    ensures var after := Handle(users, req, env1).users;
      Handle(after, req, env2) == Outcome(AlreadyExists, after)
  {
  }

  /** The requested role is stored as given, so any caller can create an
      administrator account by sending `role: "ADMIN"`. */
  lemma AnyoneCanRegisterAsAdmin(users: UserTable, req: Request, env: Environment)
    requires req.verb == "POST" && FieldsPresent(req) && !env.lookupFails && req.email.value !in users
    requires !env.createFails && !IdInUse(users, env.newId)
    requires req.role == Some("ADMIN")
    ensures var o := Handle(users, req, env);
      o.users != users && o.users[req.email.value].role == Admin
  {
  }

  /** Registration then sign-in: when bcrypt's comparison accepts a password
      against its own hash, the new user can sign in with the same email and
      password and gets the stored role and id. */
  lemma RegisteredUserCanSignIn(
    users: UserTable, req: Request, env: Environment, compare: (string, string) -> bool)
    requires Handle(users, req, env).users != users
    requires forall p :: compare(p, env.hash(p, HashRounds))
    ensures var after := Handle(users, req, env).users;
      var user := Auth.Authorize(Some(Auth.Credentials(req.email, req.password)), after, compare);
      && user.Some?
      && user.value.id == env.newId
      && RoleName(user.value.role) == RoleOf(req)
  {
    var row := NewRow(req, ParseRole(RoleOf(req)).value, env);
    assert compare(req.password.value, row.password);
  }

  /** The table as an object that registration updates in place. */
  class UserStore {
    var users: UserTable

    ghost predicate Valid()
      reads this
    {
      WellFormed(users)
    }

    constructor ()
      ensures Valid() && users == map[]
    {
      users := map[];
    }

    method Register(req: Request, env: Environment) returns (response: Response)
      requires Valid()
      modifies this
      ensures Valid()
      ensures Outcome(response, users) == Handle(old(users), req, env)
    {
      if req.verb != "POST" {
        return MethodNotAllowed;
      }
      if !Truthy(req.name) || !Truthy(req.email) || !Truthy(req.password) {
        return MissingFields;
      }
      var name, email, password := req.name, req.email.value, req.password.value;
      if env.lookupFails {
        return InternalError;
      }
      if email in users {
        return AlreadyExists;
      }
      var hashed := env.hash(password, HashRounds);
      var role := ParseRole(OrElse(req.role, DefaultRole));
      if env.createFails || role.None? || IdInUse(users, env.newId) {
        return InternalError;
      }
      var user := User(env.newId, name, email, hashed, role.value,
                       None, false, None, None, None, None, None, env.now, env.now, None);
      users := users[email := user];
      match env.autoLogin {
        case SignInThrew =>
          response := InternalError;
        case SignInReturned(result) =>
          if result.Some? && Truthy(result.value.error) {
            response := Response(201, CreatedWithMessage(user, PleaseLogin));
          } else {
            var url := if result.Some? then result.value.url else None;
            response := Response(201, CreatedWithRedirect(user, OrElse(url, DefaultRedirect)));
          }
      }
    }
  }
}
