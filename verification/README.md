# Authentication flow of a small Express application, in Dafny

The application lets a client register a username and password, log in, see
a dashboard once logged in, see an admin panel only with the `admin` role,
and log out. This project models that flow: the user collection, one
client's session, the `requireAuth` and `requireAdmin` middleware, the guard
chains of `/dashboard` and `/admin`, and the register, login and logout
handlers. It proves what the flow promises.

Modules, leaves first:

- `Wrappers`: the `Option` type.
- `PasswordHasher`: bcrypt as an abstract pair `hash(password, salt)` and
  `compare(password, digest)`. The only property assumed of it is
  `Sound`: a password matches every digest made from it. `NonEmptyDigests`
  (a bcrypt digest is never `""`) is required only by lemmas that go
  through a successful registration, because the schema rejects an empty
  password field.
- `CredentialStore`: the user record, the schema's `required` check
  (`Storable`), the `findOne({ username })` lookup (`FindOne`), and
  `SetRole`, an edit of a record's role made directly in the database. The
  application has no such operation; `SetRole` is there only to state that
  the session role is a snapshot.
- `Guards`: the session, the responses, both guards, the ordered middleware
  pipeline (`RunChain`), and the two protected routes.
- `AuthService`: the whole state as a value, the handlers as transitions
  (`Register`, `Login`, `Logout`), the invariant `Valid` they keep, the
  router (`Handle`), and runs of requests served one at a time (`Run`).
- `AuthProperties`: lemmas that relate several requests.
- `Server`: the class `App`, whose fields are the user collection and the
  session. Its handler methods update those fields in place. Each method is
  proved equal to the matching transition and proved to keep `Valid`.

The randomness and outcomes that come from outside are parameters:

- the bcrypt salt is an argument of register;
- whether the session store manages to destroy the session is an argument
  of logout.

The session record holds two optional fields, like the session object:
`userId` and `userRole`. A new client has neither (`ANONYMOUS`). The
`connect.sid` cookie is a flag. The session middleware hands the cookie out
once login writes to the session, and logout clears it.

Notes on the source:

- Registration does not check whether the username is already taken. A
  second record with the same name is simply added.
- Schema validation rejects an empty username. That error escapes the
  async handler, so nothing is stored. Under Express 4, which the model
  assumes, the rejected promise is not passed to any error handler and no
  answer is sent. The model records this outcome as the response
  `Unhandled`.
- The `/admin` route runs `requireAuth` before `requireAdmin`. An anonymous
  client is therefore redirected to `/login`. With the guards the other way
  round, it would get 403.
- `register` accepts an empty password and stores its digest.
- `findOne` defines no order among records with the same name, so
  `FindOne` promises only a matching record.

## Model

| member | source | states |
|---|---|---|
| CredentialStore.FindOne | public/js/app.js:66 | the lookup returns a record of the collection whose username is exactly the one asked for, and returns nothing only when no record has that name |
| CredentialStore.Storable | public/js/app.js:27-31 | a record passes schema validation exactly when its name and its stored digest are both non-empty |
| CredentialStore.FindOneAfterAppend | public/js/app.js:53-66 | a record saved under a name nobody else holds is the record the later lookup finds |
| CredentialStore.FindOneAfterSetRole | public/js/app.js:30 | editing a role in the database does not change which record the lookup finds; the found record carries its new role |
| Guards.RequireAuth | public/js/app.js:78-83 | hands on exactly when the session holds a user id; otherwise answers with a redirect to /login |
| Guards.RequireAdmin | public/js/app.js:86-91 | hands on exactly when the session role is the exact string "admin"; any other role, or none, is answered 403 "Access Denied" |
| Guards.RunChain | public/js/app.js:94-101 | the handler's answer is sent exactly when every guard hands on; otherwise the answer is that of the first guard to stop the request |
| Guards.Dashboard | public/js/app.js:94-96 | the welcome text is sent exactly when the session is logged in; an anonymous session is redirected to /login |
| Guards.Admin | public/js/app.js:99-101 | anonymous: redirect to /login, never 403; logged in without the admin role: 403; "Admin Panel" exactly for a logged-in admin session |
| Guards.AdminGuardOrderMatters | public/js/app.js:99 | the guard order matters: the admin chain sends an anonymous client to /login, and the swapped chain would answer it 403 |
| AuthService.Initial | public/js/app.js:14-33 | the start state: the collection the database already holds (distinct ids, valid under the schema), kept as it is, and an anonymous client without a cookie, satisfying Valid |
| AuthService.Register | public/js/app.js:43-55 | on success, exactly one record is appended with the next id, the given name, the digest of the password and the role "user"; earlier records and the session are untouched, and the answer is a redirect to /login; success depends only on schema validation, with no duplicate-name check; on failure nothing changes and the response is Unhandled (under Express 4, no answer is sent); keeps Valid |
| AuthService.Login | public/js/app.js:63-75 | the answer is /dashboard or /login; /login leaves the state unchanged; /dashboard means a record with that name matched the password, and the session now holds its id and role, with the cookie set; an unknown name or a password no record matches gives /login; keeps Valid |
| AuthService.Logout | public/js/app.js:104-112 | when destroy succeeds: anonymous session, cookie cleared, redirect to /login; when it fails: nothing changes and the answer is a redirect to /dashboard; the store is untouched; keeps Valid |
| AuthService.Handle | public/js/app.js:43-112 | only register writes the store or advances the next id, only login and logout write the session or the cookie, and the guarded pages change nothing; every request keeps Valid |
| CredentialStore.NextFreeId | public/js/app.js:48-53 | an identifier above every identifier already in the collection, so a new record's id is fresh |
| AuthService.RunStepwise | public/js/app.js:43-112 | the i-th response of a run is the answer Handle gives to the i-th request in the state the earlier requests left |
| AuthService.Run | public/js/app.js:43-112 | requests served one at a time each have exactly one entry in the responses, in order; records are only ever appended; Valid holds after any run that starts Valid |
| AuthProperties.RegisterAppends | public/js/app.js:46-54 | a registration that passes validation appends exactly the record built from the request (next id, name, digest, role "user"), advances the next id, changes nothing else and redirects to /login |
| AuthProperties.LoginSucceeds | public/js/app.js:66-71 | a found record whose digest matches the password logs the client in with that record's id and current role, sets the cookie and redirects to /dashboard |
| AuthProperties.LoginFailuresAlike | public/js/app.js:68-74 | an unknown username and a wrong password give the same outcome: state unchanged, redirect to /login |
| AuthProperties.RegisterThenLogin | public/js/app.js:43-71 | registering a name no one holds and then logging in with the same password reaches the dashboard with role "user", and /admin is refused with 403 |
| AuthProperties.RoleIsSnapshotAtLogin | public/js/app.js:69-70 | for a name held by one record only, the session role is copied at login: promoting a logged-in user in the store still leaves /admin at 403 until the next login, and the next login reaches the admin panel |
| AuthProperties.LogoutEndsAccess | public/js/app.js:104-112 | after a successful logout, /dashboard and /admin both redirect to /login; after a failed one, access is as before |
| AuthProperties.NoLoginNoAccess | public/js/app.js:78-83 | a client that starts anonymous and sends no login request stays anonymous, and each of its /dashboard and /admin requests is redirected to /login |
| AuthProperties.Walkthrough | public/js/app.js:43-101 | alice registers, logs in and sees the dashboard; a wrong password goes back to /login; bob, made admin in the store, reaches the admin panel; alice is refused it |
| Server.App.constructor | public/js/app.js:14-33 | the application starts with the stored user collection and an anonymous client without a cookie, exactly the state Initial gives, satisfying Valid |
| Server.App.PostRegister | public/js/app.js:43-55 | updates the fields in place exactly as Register; on success appends the new record with role "user" and leaves the session as it was |
| Server.App.PostLogin | public/js/app.js:63-75 | updates the fields in place exactly as Login, writing the session's id and role one after the other; a failed attempt leaves the session as it was |
| Server.App.PostLogout | public/js/app.js:104-112 | updates the fields in place exactly as Logout: success makes the session anonymous and clears the cookie; failure changes nothing and redirects to /dashboard |

## Left out

- Express set-up, static files, body parsing, and the GET /register and GET /login pages (public/js/app.js:9-13, 38-40, 58-60). These are framework plumbing and file delivery.
- The database connection, environment configuration and `app.listen` (public/js/app.js:5-7, 20-24, 115-117). These are I/O and process start-up.
- bcrypt's salting, work factor 10 and constant-time comparison. The hasher is two abstract functions, and only `Sound` (plus `NonEmptyDigests` where noted) is assumed of it.
- The property that a stored digest never equals the plaintext password. The sole round-trip assumption about bcrypt does not imply it. The model proves only that the stored field is `hash(password, salt)`; it does not prove that this differs from the password.
- Form fields that are missing or not strings. Inputs are strings. In the source, a missing field has these effects:
  - Register, missing password: `bcrypt.hash` throws (public/js/app.js:46).
  - Register, missing username: the record fails the `required` check (public/js/app.js:28).
  - Login, missing username: the outcome depends on how Mongoose treats an undefined filter value. If it drops the value, `findOne` may return an arbitrary record, and the password is checked against that record's digest. The model does not cover this case.
  - Login, missing password and unknown name: the answer is `/login`, since the `user &&` test fails before `compare` runs.
  - Login, missing password and a name that is found: `compare` throws (public/js/app.js:68).
- Records in the database that violate the schema or share an identifier. `Initial` and the `App` constructor require stored records to have distinct ids and non-empty names and digests.
- Store failures on save or lookup. These are I/O errors that escape the handler. Only the schema validation failure is modelled.
- Cookie signing, session id generation and expiry in express-session. Server-side expiry is not modelled, so a session ends only at logout.
- Several clients and concurrent requests. The model has one client, and requests are served one at a time. Races between duplicate registrations are therefore not represented.
- Which duplicate `findOne` returns. `FindOne` scans from the front. Its own contract and the login lemmas promise only a matching record.
- CredentialStore.FindOneAfterSetRole: states that the model's front-to-back scan finds the same record before and after a role edit. For a name held by one record this holds of any lookup. For duplicate names it depends on the scan order, which `findOne` does not promise. `RoleIsSnapshotAtLogin` therefore requires the name to be held by one record only.
- The process-level effect of an unhandled rejection. On Node 15 or later it ends the process, and the in-memory session store goes with it. Express 5 would answer 500 instead. The model assumes Express 4 and records the outcome only as the response `Unhandled`.
