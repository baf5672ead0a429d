/** The user record shared by the authentication handlers: the `Role`
    enumeration and the stored row of the `User` table, with the columns that
    the current-user endpoint selects. */
module Users {
  import opened Common

  datatype Role = Student | Instructor | Admin

  /** The enumeration's database and wire spelling. */
  function RoleName(r: Role): (s: string)
    ensures s in {"STUDENT", "INSTRUCTOR", "ADMIN"}
  {
    match r
    case Student => "STUDENT"
    case Instructor => "INSTRUCTOR"
    case Admin => "ADMIN"
  }

  /** The database accepts exactly the three spellings of the enumeration. */
  function ParseRole(s: string): (r: Option<Role>)
    ensures r.Some? <==> s in {"STUDENT", "INSTRUCTOR", "ADMIN"}
    ensures r.Some? ==> RoleName(r.value) == s
  {
    if s == "STUDENT" then Some(Student)
    else if s == "INSTRUCTOR" then Some(Instructor)
    else if s == "ADMIN" then Some(Admin)
    else None
  }

  lemma ParseRoleName(r: Role)
    ensures ParseRole(RoleName(r)) == Some(r)
  {
  }

  /** Timestamps (`DateTime` columns) as instants. */
  type Instant = int

  /** A row of the `User` table. `password` holds the bcrypt hash. */
  datatype User = User(
    id: string,
    name: Option<string>,
    email: string,
    password: string,
    role: Role,
    emailVerified: Option<Instant>,
    agreedToTerms: bool,
    avatar: Option<string>,
    bio: Option<string>,
    verificationToken: Option<string>,
    resetToken: Option<string>,
    resetTokenExpires: Option<Instant>,
    createdAt: Instant,
    updatedAt: Instant,
    deletedAt: Option<Instant>)

  /** The user table as the handlers see it: rows looked up by their unique
      `email` column. */
  type UserTable = map<string, User>

  /** Every row is stored under its own email, so no two rows share an email. */
  ghost predicate EmailKeyed(users: UserTable)
  {
    forall e :: e in users ==> users[e].email == e
  }

  /** The primary key `id` is unique across rows. */
  ghost predicate IdsUnique(users: UserTable)
  {
    forall e1, e2 :: e1 in users && e2 in users && users[e1].id == users[e2].id ==> e1 == e2
  }

  ghost predicate WellFormed(users: UserTable)
  {
    EmailKeyed(users) && IdsUnique(users)
  }

  predicate IdInUse(users: UserTable, id: string)
  {
    exists e | e in users :: users[e].id == id
  }
}
