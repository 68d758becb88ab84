# User management service: a verified model

This project models a small user-management HTTP service in Dafny. The service keeps one
collection of user documents. Each document holds first and last name, a role, an activity
flag, the last login time, the creation time and a password digest. The service has seven
endpoints:

- `POST /login` digests the credential in the body and looks the user up by names and digest.
  An inactive user becomes active and gets a login time. The answer is the digest, used later
  as a bearer credential.
- `GET /logout` finds the user whose digest equals the `hashed_pass` header and deactivates them.
- `GET /` lists at most 1000 users.
- `GET /{id}` shows one user.
- `POST /` creates a user.
- `PUT /{id}` merges the supplied name and role fields into a user.
- `DELETE /{id}` removes a user.

A middleware runs before every handler. For `PUT` it requires that the user matched by the
`hashed_pass` header be `admin` or `dev`. For `DELETE` it requires `admin`. Every other method
passes. A refusal is a 403 and the handler does not run.

Layout:

- `models.dfy`, module `Models` (models.py). It holds the closed `Role` enumeration, the stored
  `User` document, and the validation of the three request bodies. Create validation applies the
  defaults and digests the password once. Update validation accepts only names and role. Login
  validation takes the credential as sent. The module also holds `PyObjectId.validate` and the
  `UserModel` output projection.
- `app.dfy`, module `App` (app.py). It holds the access policy and the pure `Gate` decision,
  the store's `find_one` filters, and the handlers' effects stated on values (`LoginStep`,
  `UpdateOutcome`, ...). The class `UserService` holds the collection as a `map<Id, User>`
  field. Its methods are the middleware, the seven handlers, and `Handle` (gate, then body
  validation, then handler). Each method is proved against the value-level statement.
  `Valid()` is the invariant that every stored credential is a digest. Every method preserves
  it, but no other contract relies on it. With an abstract digest it is weak: a digest that
  reaches every string makes it hold of any table.
- `properties.dfy`, module `Properties`. It holds lemmas that relate operations: create then
  show, delete then show, create then log in, a second login or logout, and the bound on a
  listing.

The digest (MD5), the store's object-id validity test and the moment the model classes were
defined are fixed when a `UserService` is built. The current time and the id a new ObjectId
would receive are passed with each request. The store's `find_one` returns *some* matching
document, so the login, logout and middleware specifications are existential. When two users
share a password digest, the middleware may judge a request by either of them. For the same
reason, idempotence of login and logout is proved when the filter identifies one user.

Behaviours of the code the model keeps:

- `create_user` answers with the full stored document, `_id` and `hashed_pass` included. Its
  `JSONResponse` bypasses the `UserModel` projection.
- Login sets `last_login` only when the user was inactive.
- A client may supply `is_active`, `last_login`, `created_at` and `_id` at creation. For this
  reason `created_at <= last_login` is not an invariant of the model.
- Logout with a header that matches nobody reads a field of `None` and fails with a 500. It
  leaves the table unchanged.
- A create whose supplied `_id` is already stored makes the store's insert raise, giving a 500.
- Login digests the body's credential once, and creation digests the password once. A client
  therefore sends the plaintext to both. `Properties.CreatedUserCanLogIn` proves that the two
  meet.

## Model

| member | source | states |
|---|---|---|
| `Models.ParseRole` | models.py:27-30 | a string is a role iff it is one of `admin`, `dev`, `simple_mortal`, and the parsed role is spelled as given |
| `Models.RoleNameRoundTrip` | models.py:27-30 | every role parses back from its value |
| `Models.ValidateObjectId` | models.py:16-20 | the id is accepted exactly when the validity test holds; otherwise the error is "Invalid objectid" |
| `Models.CreateUserErrorsSpec` | models.py:48-55 | the create body yields no error iff names, role and password are present, the role is in the enumeration and a supplied id is valid; each missing field and an invalid id appear in the error list exactly when they occur; a role outside the enumeration is reported as such; only the five validated fields are ever reported |
| `Models.ValidateCreateUser` | models.py:47-74 | success iff the required fields are present and valid; the stored credential is the digest of the supplied password, applied once; `is_active` defaults to false, `last_login` to unset, `created_at` to the class-definition time; the id is the supplied one or a generated one; failure lists every missing field, an invalid id and a role outside the enumeration, and names no field other than the five validated ones |
| `Models.DefaultCreatedAtShared` | models.py:54 | two creations without `created_at` get the same value, the class-definition time |
| `Models.ValidateUpdate` | models.py:77-80 | an update carries only names and role, each optional; it fails only for a role outside the enumeration |
| `Models.ValidateLogin` | models.py:95-98 | a login body is valid iff names and credential are present; each missing one is reported |
| `Models.Project` | models.py:33-39 | the corrected projection agrees with the as-written one wherever that accepts the document, and is also defined when `last_login` is unset |
| `Models.ProjectShowsExactlyTheseFields` | models.py:33-39 | two documents have the same view iff they agree on names, role, activity and both timestamps |
| `Models.ProjectHidesCredential` | models.py:33-39 | the view does not depend on the stored credential |
| `Models.ProjectAsWritten` | models.py:38 | the projection as written accepts a document iff its `last_login` is set |
| `Models.NewUserNotShowableAsWritten` | models.py:53 | a user created with the default `last_login` has no view under the as-written projection |
| `App.Gate` | app.py:21-41 | a request proceeds iff its method needs no role, or the matched caller holds one of the roles the policy table lists for it (`PUT`: admin or dev; `DELETE`: admin) |
| `App.Activated` | app.py:59-61 | after login the user is active; an active user is unchanged; an inactive one gets `last_login = now`; no other field changes |
| `App.Deactivated` | app.py:74-75 | after logout the user is inactive and no other field changes |
| `App.NonNoneFields` | app.py:108 | the patch has a key for exactly the supplied fields, with the supplied values, and no other key |
| `App.EmptyPatchIffNothingSupplied` | app.py:108-110 | the patch is empty iff the update supplies no field |
| `App.SetFields` | app.py:111 | `$set` of a patch that an update can produce (name and role keys only) writes each key the patch carries with its value, keeps every field it lacks, and so never changes `is_active`, `last_login`, `created_at` or `hashed_pass` |
| `App.SetNonNoneFieldsIsMerge` | app.py:108-111 | building the patch and applying it with `$set` equals the reference merge of the supplied fields |
| `App.UserService.constructor` | app.py:16-18 | the service connects to a collection holding the given documents, whose credentials are digests, with the given digest, id test and class-definition time |
| `App.UserService.FindOne` | app.py:25 | the result is a stored document satisfying the filter, and there is none exactly when no document does |
| `App.UserService.VerifyRequest` | app.py:21-41 | methods other than `PUT`/`DELETE` pass; a pass for `PUT`/`DELETE` implies some user with that credential holds a required role; a credential whose every match holds one always passes |
| `App.UserService.Login` | app.py:44-65 | on a match of names and digest some matching user is activated (`Activated`) and the answer is 201 with the digest; otherwise 401 and nothing changes; the credential invariant holds |
| `App.UserService.Logout` | app.py:68-77 | on a match some matching user is deactivated and the answer is 204; with no match the handler fails (500) and nothing changes |
| `App.UserService.ListUsers` | app.py:80-85 | the listing holds `min(#users, 1000)` views of distinct stored documents |
| `App.UserService.ShowUser` | app.py:88-95 | a stored id shows its projection with 200; any other id is a 404 |
| `App.UserService.CreateUser` | app.py:98-103 | a new id stores the document and answers 201 with the stored document; an id in use changes nothing and fails |
| `App.UserService.UpdateUser` | app.py:106-122 | whatever the patch size and the modified count, a known id ends with the merged document and answers 200 with its view; an unknown id is a 404 with the table unchanged |
| `App.UserService.DeleteUser` | app.py:125-132 | a known id is removed with 204; an unknown id is a 404 with the table unchanged |
| `App.UserService.Handle` | app.py:21-41 | a 403 leaves the table unchanged; methods that need no role are never refused; `PUT`/`DELETE` without a privileged matching user are refused; otherwise each route validates its body (422 on error) and has its handler's effect |
| `Properties.CreateThenShow` | app.py:98-103 | a create under a fresh id keeps the other documents and the new id then shows the created user |
| `Properties.DeleteThenShow` | app.py:125-132 | a delete removes exactly that id, keeps every other document, and the id then shows as 404 |
| `Properties.UpdateChangesOnlySuppliedFields` | app.py:106-122 | an update stores each supplied field, keeps the other fields (credential, activity and timestamps included) and every other document |
| `Properties.EmptyUpdateIsRead` | app.py:108-120 | an update that supplies nothing leaves the table and answers as a show does |
| `Properties.CreatedUserCanLogIn` | app.py:49-56 | a user created with a plaintext password logs in with the same names and plaintext: 201 with the digest |
| `Properties.LoginTwice` | app.py:58-64 | with one matching user, a second login changes nothing and answers the same |
| `Properties.LogoutTwice` | app.py:72-77 | with one matching user, a second logout changes nothing; both answer 204 |
| `Properties.ListingFitsTable` | app.py:84 | a listing never holds more views than there are documents |

## Findings

| source | as written | input that shows it | evidently intended | confidence | as-written member | corrected member |
|---|---|---|---|---|---|---|
| models.py:38 | `UserModel.last_login` is a required `datetime`, and `CreateUserModel` defaults `last_login` to `None` (models.py:53). Every response with `response_model=UserModel` (show, list, update) then fails validation for a user who has never logged in, which gives a 500. | `POST /` with first_name "John", last_name "Snow", role "simple_mortal", hashed_pass "pw123", then `GET /{id}` with the new id | the projection shows an unset `last_login` | medium, not executed | `Models.ProjectAsWritten`, shown by `Models.NewUserNotShowableAsWritten` | `Models.Project`, used by every handler of `App` |

## Left out

- The digest is MD5 in the service. Here it is an arbitrary deterministic function given to the service, and MD5 itself is not modelled.
- ObjectId generation and `ObjectId.is_valid` are not modelled. The generated id is a per-request parameter that must not be stored yet. Validity is a predicate given to the service.
- `Models.ValidateObjectId`: returns the id string as given. `ObjectId(v)` may re-spell a valid id, for example in lower-case hex. That re-spelling is not modelled, because the store's id type is abstract here.
- The clock (`datetime.utcnow()`) is not modelled. The current time is a parameter of each request. The class-definition time behind the `created_at` default is a constant of the service.
- The MongoDB client, the connection URL from the environment, async/await and concurrent requests are not modelled. Each request is one atomic step on the map.
- Store failures other than a duplicate `_id` on insert are not modelled.
- The debug `print` at app.py:50 is not modelled.
- FastAPI routing and response construction are not modelled. That covers method-not-allowed answers, the precedence of `/logout` over `/{id}`, and JSON encoding. Responses are status codes with a small body datatype.
- Pydantic's type coercion, its other error kinds and its error messages are not modelled. Request bodies arrive with their JSON fields already typed; a field is present or absent (`null` counts as absent).
- `Models.ValidateCreateUser`: treats an explicit `null` for `is_active` or `created_at` as absent and applies the default. The source declares both fields non-optional (models.py:52, models.py:54), so it rejects such a `null` with a 422. The body representation has no separate `null`.
- `App.UserService.ListUsers`: returns some 1000 distinct documents. It does not model the store's natural order, which `to_list` follows.
