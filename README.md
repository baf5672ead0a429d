# LMS platform core, modelled in Dafny

This project models the request-handling and form logic of a Next.js learning
platform:

- the edge middleware that guards `/dashboard` and `/admin` and sends signed-in users to their home page;
- the credentials sign-in (`authorize`) and the `jwt`/`session` callbacks that copy the role and id into the session;
- the registration endpoint, modelled as a user table that `Register` updates in place;
- the current-user endpoint and the profile it returns;
- the client-side `Auth` gate of `_app`;
- the enrollment page's status machine and its server-side login redirect;
- the canned chatbot responder;
- the course search filter;
- the sign-up form's validation, its password-strength meter and its field updates.

One Dafny module covers each source file. `Common` holds the JavaScript string behaviour these files rely on:

- falsy strings and `||` defaults;
- ASCII `toLowerCase`/`toUpperCase`;
- `includes`;
- the ECMAScript whitespace set and `trim`.

`Users` holds the `Role` enumeration and the stored `User` row.

Library calls are parameters of the model:

- bcrypt `hash` and `compare`;
- `encodeURIComponent`;
- the id and clock the database supplies.

What a database call, a fetch or `signIn` does is an input. It either returns a value or raises.

The sign-in modelled is the `authorize` and the callbacks of `lib/auth.ts`. The repository has a second configuration, in `pages/api/auth/[...nextauth].ts`. That is the one the `/api/auth` route mounts, so the `signIn('credentials')` call of the registration endpoint reaches it. The current-user endpoint also takes its options from it. The `lib/auth.ts` options serve only `getServerSession` in `pages/api/courses/[id]/enroll.ts`. The mounted `authorize` differs in four ways:

- it looks the row up by the lower-cased submitted email (`[...nextauth].ts:93-95`);
- it throws instead of returning null (`[...nextauth].ts:89-91` and `:120-127`);
- it refuses a row that has no password (`[...nextauth].ts:120`);
- it returns a larger profile, with the verification flag, avatar, bio, enrollments and taught courses (`[...nextauth].ts:136-150`).

So an address registered with capital letters is stored as typed. When the database's email column compares case-sensitively (the PostgreSQL and SQLite defaults), the mounted sign-in, which looks for its lower-cased form, never finds it. `Registration.RegisteredUserCanSignIn` holds for `lib/auth.ts`'s `authorize` only.

Four behaviours of the code that the model states as written:

- **Email lookup.** `lib/auth.ts` looks the user up by the submitted email as it is, with no lower-casing, and registration stores and checks the email as submitted. When the email column compares case-sensitively, sign-in therefore tells `A@x.io` and `a@x.io` apart. `Auth.UnknownEmailRefused` states the exact-match behaviour.
- **Registration response.** The 201 response carries the created row itself, password hash included (pages/api/auth/register.ts:57 and :63). `Registration.CreatedBody` states this.
- **Sign-in profile.** `lib/auth.ts`'s `authorize` returns only id, email, name and role (lib/auth.ts:29-34).
- **Accounts without a password.** `lib/auth.ts` has no separate case for an account with no stored hash.

The enrollment model follows `pages/api/courses/enroll.tsx`. That file sits under `pages/api`, so Next.js serves it as an API route and never renders it as a page or runs its `getServerSideProps`. The enrollment page users actually reach is `pages/course/[id]/enroll.tsx`, which is not part of this model.

## Model

| member | source | states |
|---|---|---|
| Common.OrElse | pages/api/auth/register.ts:41 | `x \|\| d` gives `x` when it is a non-empty string and `d` otherwise |
| Common.Lower | pages/courses.tsx:36 | lower-casing keeps the length and maps each character to its ASCII lower case |
| Common.Upper | pages/courses.tsx:36 | upper-casing keeps the length and maps each character to its ASCII upper case |
| Common.LowerOfUpper | pages/api/chat.ts:44 | lower-casing an upper-cased text gives the lower-cased text |
| Common.IncludesTransitive | pages/api/chat.ts:48 | if `a` includes `b` and `b` includes `c`, then `a` includes `c` |
| Common.TrimStart | pages/courses.tsx:46 | the result is a suffix of its input, everything dropped is whitespace, and it does not start with whitespace |
| Common.TrimEnd | pages/courses.tsx:46 | the result is a prefix of its input, everything dropped is whitespace, and it does not end with whitespace |
| Common.Trim | pages/courses.tsx:46 | the trimmed text is no longer than its input and neither starts nor ends with whitespace |
| Common.TrimSlice | pages/courses.tsx:46 | the trimmed text is a contiguous part of its input, and only whitespace is dropped around it |
| Common.TrimEmptyIff | pages/signup.tsx:88-96 | a trimmed text is empty exactly when every character is whitespace |
| Users.RoleName | pages/signup.tsx:17 | a role is spelled STUDENT, INSTRUCTOR or ADMIN |
| Users.ParseRole | pages/api/auth/register.ts:41 | a value can be stored in the role column exactly when it is one of the three spellings, and it reads back as that spelling |
| Users.ParseRoleName | prisma/seed.ts:13 | a role's spelling parses back to that role |
| Middleware.Home | middleware.ts:17 | students belong on `/dashboard` and every other role on `/admin` |
| Middleware.Guard | middleware.ts:5-29 | a redirect never targets the requested path and always lands on `/auth/login`, `/dashboard` or `/admin`; with a token it goes to the role's home, without one to the login page |
| Middleware.LandingPagesApart | middleware.ts:10-25 | no landing page lies under the `/dashboard` or `/admin` prefix of another |
| Middleware.AnonymousRequests | middleware.ts:10-12 | without a token, exactly the paths under `/dashboard` or `/admin` redirect to `/auth/login` |
| Middleware.SignedInOnAuthPages | middleware.ts:15-18 | with a token, the login and register pages redirect to the role's home |
| Middleware.StudentKeptOutOfAdmin | middleware.ts:21-26 | a student on any `/admin` path is sent to `/dashboard` |
| Middleware.InstructorKeptOutOfDashboard | middleware.ts:21-26 | an instructor on any `/dashboard` path is sent to `/admin` |
| Middleware.InstructorDashboardUnreachable | middleware.ts:23 | even `/dashboard/instructor…` redirects an instructor to `/admin` |
| Middleware.AdminOnlyLeavesAuthPages | middleware.ts:15-29 | an admin is redirected only from the login and register pages |
| Middleware.RedirectsExactly | middleware.ts:10-29 | the guard redirects if and only if one of its three conditions holds |
| Middleware.NoRedirectLoop | middleware.ts:10-29 | following a redirect with the same token reaches a page that passes |
| Auth.PublicProfile | lib/auth.ts:29-34 | the returned user copies id, email, name and role, and has no password |
| Auth.Authorize | lib/auth.ts:17-35 | a user is returned if and only if both fields are non-empty, a row has that exact email and `compare` accepts the password against its hash; that user is the row's profile |
| Auth.IncompleteRefused | lib/auth.ts:18 | a missing or empty email or password is refused |
| Auth.UnknownEmailRefused | lib/auth.ts:20-24 | an email with no row is refused; there is no case folding |
| Auth.RefusalsIndistinguishable | lib/auth.ts:24-27 | no row and a wrong password give the same answer |
| Auth.AuthorizedEmailIsSubmitted | lib/auth.ts:20-34 | on an email-keyed table, the accepted user's email is the submitted one |
| Auth.JwtCallback | lib/auth.ts:39-45 | with a user, the token gets its role and id; otherwise they are unchanged; the other claims never change |
| Auth.SessionCallback | lib/auth.ts:46-52 | a present session user gets the token's role and id; its other fields are unchanged |
| Auth.SignIn | lib/auth.ts:17-52 | after an accepted sign-in, the session user holds the stored row's role and id |
| Registration.NewRow | pages/api/auth/register.ts:36-43 | the inserted row has the submitted name and email, the cost-12 hash of the password, the role and the database's id |
| Registration.AfterCreate | pages/api/auth/register.ts:46-70 | after the insert the answer is 201 unless `signIn` raised, which gives 500 |
| Registration.Handle | pages/api/auth/register.ts:7-70 | statuses are 201, 400, 405 or 500; refusals leave the table unchanged; 405, missing fields and an existing email are answered as the code does; a request that passes every check and whose insert succeeds adds exactly its new row and is answered as `AfterCreate` says; a changed table gains exactly one row under the submitted email; a creation is 201 exactly when `signIn` returned; a well-formed table stays well-formed |
| Registration.CreatedRow | pages/api/auth/register.ts:33-43 | on 201 the stored row holds the cost-12 hash, the name, and the given role or STUDENT |
| Registration.CreatedBody | pages/api/auth/register.ts:53-65 | on 201 the body is the stored row with the "Please login." message when sign-in reported an error, and otherwise with its URL or `/dashboard` |
| Registration.DatabaseFailureIs500 | pages/api/auth/register.ts:67-70 | a failed lookup or insert gives 500 and leaves the table unchanged |
| Registration.SecondRegistrationRefused | pages/api/auth/register.ts:24-30 | registering the same email again is refused with 400 and changes nothing |
| Registration.AnyoneCanRegisterAsAdmin | pages/api/auth/register.ts:15-43 | a request with `role: "ADMIN"` that passes the checks creates an administrator |
| Registration.RegisteredUserCanSignIn | pages/api/auth/register.ts:33-43 | when bcrypt accepts a password against its own hash, a new user can sign in through `lib/auth.ts`'s `authorize` with the same credentials and gets the stored id and role |
| Registration.UserStore.constructor | pages/api/auth/register.ts:24 | a new store is an empty, well-formed table |
| Registration.UserStore.Register | pages/api/auth/register.ts:7-70 | the in-place update gives the response and new table that `Handle` gives, and keeps the table well-formed |
| CurrentUser.Project | pages/api/auth/user.ts:47-50 | the profile copies the selected columns, and its `emailVerified` is true exactly when the stored value is not null |
| CurrentUser.SessionEmail | pages/api/auth/user.ts:18-23 | the session email is present exactly when the session has a user with a non-empty email, and it is that user's own email |
| CurrentUser.ServerError | pages/api/auth/user.ts:54-59 | a raised error gives 500 "Internal server error", with the error's message as `details`, or "Unknown error" when something other than an `Error` was thrown |
| CurrentUser.Handle | pages/api/auth/user.ts:7-60 | 405 with "Method not allowed" exactly for non-GET; 401 exactly without a session email; 404 exactly when no row has that email; 200 with the row's profile exactly when one does; when `getServerSession` or the lookup raises, the 500 `ServerError` of that error, with its `details` |
| CurrentUser.ProfileOfSessionUser | pages/api/auth/user.ts:22-52 | the 200 profile belongs to the session's email, and its `emailVerified` reflects that row |
| CurrentUser.ErrorDetails | pages/api/auth/user.ts:58 | `details` is the error's message, or "Unknown error" when something other than an `Error` was thrown |
| App.Navigation | pages/_app.tsx:52-63 | the gate does not navigate while loading; it goes to `/login` exactly when loading is over and there is no session; it goes to `/unauthorized` exactly when a required role differs from the session's |
| App.Render | pages/_app.tsx:65-73 | the gate shows "Loading" exactly while loading and "Unauthorized" exactly when a required role differs; with no required role it shows the page |
| App.AuthGate | pages/_app.tsx:52-73 | nothing is pushed while "Loading" shows; `/unauthorized` is pushed exactly when "Unauthorized" shows to a session; `/login` exactly when loading is over without a session; a page shown to a session navigates nowhere |
| App.Page | pages/_app.tsx:37-45 | only a page whose `auth.required` is true goes through the gate |
| App.FlaggedPagesUngated | pages/dashboard/student/index.tsx:117 | a page with `auth = true` is never gated |
| App.MatchingRoleShowsPage | pages/_app.tsx:60-73 | with the required role, the page shows and nothing navigates |
| App.WrongRoleTurnedAway | pages/_app.tsx:60-71 | with another role, "Unauthorized" is shown and `/unauthorized` is pushed |
| App.NoSessionNoRoleRendersAndLeaves | pages/_app.tsx:55-73 | without a session and with no required role, the page renders while `/login` is pushed |
| Enrollment.FailureText | pages/api/courses/enroll.tsx:22-31 | a non-ok response shows "Enrollment failed"; a rejection with an `Error` shows that error's own message; any other rejection shows "An error occurred" |
| Enrollment.EnrollPage.constructor | pages/api/courses/enroll.tsx:9-10 | the page starts idle, with an empty message and nothing scheduled |
| Enrollment.EnrollPage.Effect | pages/api/courses/enroll.tsx:12-16 | an attempt starts (status loading) exactly when there is a course id and the status is idle; otherwise nothing changes |
| Enrollment.EnrollPage.Settle | pages/api/courses/enroll.tsx:22-32 | an ok response gives success, the success message and a navigation to `/course/<id>`; anything else gives error and its message |
| Enrollment.EnrollPage.TryAgain | pages/api/courses/enroll.tsx:51-54 | error goes back to idle with an empty message |
| Enrollment.RetryStartsOnce | pages/api/courses/enroll.tsx:13 | after a failure and "Try Again", the effect starts exactly one new attempt |
| Enrollment.ServerSideProps | pages/api/courses/enroll.tsx:66-76 | without a session there is a non-permanent redirect to `/login?callbackUrl=` plus the encoded URL (`/` when empty); with one, empty props |
| Chat.TableShape | pages/api/chat.ts:5-32 | the table has 26 keys in order; key 6 is "support" and key 18 is "contact support" |
| Chat.FirstMatch | pages/api/chat.ts:47-51 | returns the first key in table order that occurs in the text, or none when no key occurs |
| Chat.CannedReply | pages/api/chat.ts:44-51 | there is a reply exactly when some key occurs in the lower-cased message, and it is the answer of the first such key |
| Chat.Handle | pages/api/chat.ts:34-51 | non-POST gives 405; a missing, empty or non-string message gives 400; otherwise a message containing a key is answered 200 with the canned reply, and one containing no key is handed to the external model |
| Chat.CaseIgnored | pages/api/chat.ts:44 | under ASCII case mapping, a message and its upper-cased form get the same reply |
| Chat.Shadowed | pages/api/chat.ts:47-48 | a key that contains an earlier key is never the first match |
| Chat.ContactSupportNeverAnswered | pages/api/chat.ts:12-24 | the "contact support" answer is never given, because "support" comes first |
| Courses.CatalogueIdsDistinct | pages/courses.tsx:11-21 | the catalogue has nine courses with pairwise distinct ids |
| Courses.QueryOf | pages/courses.tsx:26 | a present query parameter is used as it is, and an absent one gives the empty query |
| Courses.Filter | pages/courses.tsx:35-37 | keeps exactly the courses whose lower-cased title includes the lower-cased query, each as often as it occurs in the input, as a subsequence of the input |
| Courses.Visible | pages/courses.tsx:33-42 | an empty query shows the whole catalogue; otherwise exactly the matching courses, in catalogue order |
| Courses.EmptyQueryKeepsAll | pages/courses.tsx:34-41 | filtering with the empty query would keep every course |
| Courses.FilterCaseIgnored | pages/courses.tsx:36 | under ASCII case mapping, upper-casing the query does not change the filter's result |
| Courses.QueryCaseIgnored | pages/courses.tsx:33-42 | under ASCII case mapping, upper-casing the query does not change the list shown |
| Courses.Render | pages/courses.tsx:159-191 | "No courses found." is shown exactly when the list is empty |
| Courses.NothingFoundIff | pages/courses.tsx:159-191 | "No courses found." is shown exactly when no catalogue title contains the query |
| Courses.HandleSearch | pages/courses.tsx:45-48 | nothing happens for a blank term; otherwise it navigates to `/courses?query=` plus the encoded, untrimmed term |
| Signup.ValidEmailShape | pages/signup.tsx:98 | an accepted address has no whitespace, exactly one `@` and survives trimming unchanged |
| Signup.TrimStartKeepsNonSpace | pages/signup.tsx:93 | a text that starts with a non-space is unchanged by trimming its start |
| Signup.TrimEndKeepsNonSpace | pages/signup.tsx:93 | a text that ends with a non-space is unchanged by trimming its end |
| Signup.StrongPasswordIff | pages/signup.tsx:86 | the password pattern accepts exactly texts of at least 8 characters, with no line terminator, an upper-case letter, a digit and one of `!@#$%^&*` |
| Signup.Met | pages/signup.tsx:172-175 | a criterion is counted exactly when its test passes |
| Signup.CountChosen | pages/signup.tsx:171-176 | four distinct criteria, each chosen or not, count one each |
| Signup.MetCount | pages/signup.tsx:171-176 | the strength is one point per criterion met |
| Signup.StrengthBounds | pages/signup.tsx:169-177 | an empty password has strength 0, and no password has more than 4 |
| Signup.AcceptedPasswordIsStrongest | pages/signup.tsx:86-175 | a password the pattern accepts meets all four criteria |
| Signup.StrengthHint | pages/signup.tsx:444-455 | the length hint is shown below 8 characters; otherwise Strong for 3 or more, Medium for 2 and Weak below 2 |
| Signup.HintOfMet | pages/signup.tsx:444-455 | "Weak" is shown only when length is the only criterion met; an accepted password shows "Strong" |
| Signup.FirstError | pages/signup.tsx:85-124 | there is no error exactly when all seven checks pass; otherwise the error is that of the first failing check, in the page's order |
| Signup.UnknownAvailabilityDoesNotBlock | pages/signup.tsx:103 | unknown availability is judged like availability |
| Signup.BlankEmailCaughtByPatternToo | pages/signup.tsx:93-101 | a form whose address passes the pattern never gets "Email address is required" |
| Signup.ValidFormHasFullStrength | pages/signup.tsx:86-177 | a form that validates has a password of strength 4 |
| Signup.Updated | pages/signup.tsx:70-75 | only the named field changes: the checkbox sets `agreeTerms`, a text input sets its own field |
| Signup.UpdatedLastWins | pages/signup.tsx:72-75 | two changes to the same field keep only the second |
| Signup.SignupForm.constructor | pages/signup.tsx:23-35 | the form starts empty, with STUDENT, no messages and unknown availability |
| Signup.SignupForm.PasswordStrength | pages/signup.tsx:169-177 | the counter equals the number of criteria met, and is at most 4 |
| Signup.SignupForm.HandleChange | pages/signup.tsx:70-79 | the form becomes `Updated(form, event)`, both messages are cleared and availability is unchanged |
| Signup.SignupForm.HandleRoleChange | pages/signup.tsx:81-83 | only the role changes |
| Signup.SignupForm.ValidateForm | pages/signup.tsx:85-124 | the answer is true exactly when no check fails; otherwise the error shown is the first failing check's; nothing else changes |

## Left out

- JSX rendering, animation, navbars, footers and styling, including the strength bar's colours, are presentation only.
- The pages with no logic: login, contact, about, layout, index, the chatbot widget and the dashboard mock data.
- The configuration and declaration files are not modelled. `types/*` gives only record shapes.
- next-auth internals are not modelled. That includes how `getToken`, `getServerSession`, `getSession` and `useSession({ required: true })` obtain a session. The session each of them yields is an input.
- bcrypt `hash` and `compare` are uninterpreted parameters. `Registration.RegisteredUserCanSignIn` assumes that `compare` accepts a password against its own hash.
- Prisma is a map from email to row. The columns the code does not set take their usual defaults: null, false, and the supplied clock. The map compares emails exactly, as a case-sensitive column does; under a case-insensitive collation the lookups and register.ts's duplicate check (pages/api/auth/register.ts:24) would also match an email that differs only in case. A failing query is an input flag. The `pages/api/courses.ts` listing and `lib/prisma.ts` are not part of this model.
- The Hugging Face request of the chat handler (pages/api/chat.ts:53-77) is external I/O. The model ends in `AskModel` with the message.
- The sign-up page's availability fetch and its debounce timer (pages/signup.tsx:47-64) are network I/O. Availability is a three-valued input.
- The sign-up page's submit handler, which posts the form and signs in, is network I/O and is not modelled.
- The enrollment POST (pages/api/courses/enroll.tsx:18-20) is network I/O. Its outcome is an input. The two-second timer is the queued navigation.
- `pages/api/sendEmail.js` sends mail over SMTP and is not part of this model.
- Concurrency is not modelled: requests racing on the same email, and effects re-running while a fetch is pending.
- Case mapping covers ASCII letters only, so `Chat.CaseIgnored`, `Courses.FilterCaseIgnored` and `Courses.QueryCaseIgnored` hold for the model's mapping and fail under JavaScript's full Unicode `toUpperCase`. For example, the message `"ßupport"` contains no key, but its upper case `"SSUPPORT"` lower-cases to `"ssupport"`, which contains `"support"` (pages/api/chat.ts:12, :44-48). Likewise the query `"ﬆ"` matches no title, while its upper case `"ST"` lists Full Stack and Data Structures (pages/courses.tsx:36).
- `encodeURIComponent` is an uninterpreted function.
- Strings are sequences of code points. JavaScript measures `length` and runs a non-Unicode regex over UTF-16 code units, so the two differ on characters outside the Basic Multilingual Plane.
- Auth.Authorize: has no input for `findUnique` or `compare` raising (lib/auth.ts:20-26). A raise there rejects the sign-in with an error, not with null, and the model does not cover it.
- Registration.Request: its fields are optional strings. A truthy body value that is not a string (a number, an object) passes the 400 check in JavaScript and reaches bcrypt or Prisma; the model cannot express such a value.
- Enrollment.EnrollPage: its course id is an optional string. `router.query.id` can also be an array of strings (pages/api/courses/enroll.tsx:8), which the model does not represent.
- App.Navigation: the `Unauthenticated` status, the gate's own `/login` push and `App.NoSessionNoRoleRendersAndLeaves` describe inputs the session hook never produces here. Called with `{ required: true }` (pages/_app.tsx:50), next-auth's `useSession` keeps reporting loading for a visitor without a session and redirects to its own sign-in page. That library code is not part of this model.
- A JSON body of `null` makes the destructuring at pages/api/auth/register.ts:15 and pages/api/chat.ts:39 throw outside any `try`, so Next.js answers with its own 500. Neither `Registration.Request` nor `Chat.Handle`'s `message` can express that input.
- The `console.error` logging in pages/api/auth/register.ts, pages/api/auth/user.ts and pages/api/chat.ts is output only, and is dropped.
- Signup.Updated: covers the page's four text inputs and the terms checkbox. It does not model an input whose `name` is not a form field, which in JavaScript would add a new property.
- Enrollment.EnrollPage.Effect: models one run of the effect. React decides when it re-runs.
